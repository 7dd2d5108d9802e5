/** The account blocks a momentum confirms: chosen from the pool in whole batches,
    listed as headers in byte order, and checked by whoever receives the momentum. */
module MomentumContent {
  import opened Bytes
  import opened VersionedDb

  datatype Block = Block(address: Bytes, id: HashHeight, previousHash: Bytes, blockType: nat, descendants: seq<Block>)

  datatype Header = Header(address: Bytes, id: HashHeight)

  const MAX_BLOCKS := 100
  const USER_SEND := 2
  const CONTRACT_SEND := 4

  function HeaderOf(b: Block): Header { Header(b.address, b.id) }

  /** `AccountBlock.Previous`: a batch starts where its first descendant does. */
  function Previous(b: Block): HashHeight {
    if b.descendants != [] then Previous(b.descendants[0]) else Link(b)
  }

  /** The block right below; the height wraps below zero. */
  function Link(b: Block): HashHeight {
    HashHeight(b.previousHash, (b.id.height + TWO_64 - 1) % TWO_64)
  }

  predicate IsSend(b: Block) { b.blockType == USER_SEND || b.blockType == CONTRACT_SEND }

  predicate IsBatched(embedded: Bytes -> bool, b: Block) { IsSend(b) && embedded(b.address) }

  // ---- Choosing the blocks ----

  /** The last place up to m where no contract send is left open. */
  function Boundary(blocks: seq<Block>, m: nat): (n: nat)
    requires m <= |blocks|
    ensures n <= m && (n == 0 || blocks[n - 1].blockType != CONTRACT_SEND)
    ensures forall k :: n <= k < m ==> blocks[k].blockType == CONTRACT_SEND
  {
    if m == 0 || blocks[m - 1].blockType != CONTRACT_SEND then m else Boundary(blocks, m - 1)
  }

  function Chosen(blocks: seq<Block>): seq<Block> {
    blocks[..Boundary(blocks, if |blocks| < MAX_BLOCKS then |blocks| else MAX_BLOCKS)]
  }

  method FilterBlocksToCommit(blocks: seq<Block>) returns (toCommit: seq<Block>)
    ensures toCommit == Chosen(blocks)
  {
    toCommit := [];
    var batch: seq<Block> := [];
    for i := 0 to |blocks|
      invariant |toCommit| <= MAX_BLOCKS && toCommit + batch == blocks[..i] && toCommit == blocks[..Boundary(blocks, i)]
    {
      batch := batch + [blocks[i]];
      assert toCommit + batch == blocks[..i + 1];
      if blocks[i].blockType != CONTRACT_SEND {
        if |toCommit| + |batch| > MAX_BLOCKS {
          BoundaryStays(blocks, i, MAX_BLOCKS);
          return;
        }
        toCommit := toCommit + batch;
        batch := [];
      }
    }
    if |blocks| > MAX_BLOCKS { BoundaryStays(blocks, |blocks|, MAX_BLOCKS); }
  }

  /** A boundary is also the boundary of anything between. */
  lemma {:induction false} BoundaryStays(blocks: seq<Block>, m: nat, k: nat)
    requires Boundary.requires(blocks, m) && Boundary(blocks, m) <= k <= m
    ensures Boundary(blocks, k) == Boundary(blocks, m)
  {
    if k < m { BoundaryStays(blocks, m - 1, k); }
  }

  // ---- The pool's blocks ----

  /** Sends of a contract and the receive that closes them, or a block on its own. */
  datatype Batch = Batch(sends: seq<Block>, closer: Block)

  datatype Account = Account(address: Bytes, head: HashHeight, batches: seq<Batch>)

  function BatchBlocks(batch: Batch): (bs: seq<Block>)
    ensures |bs| == |batch.sends| + 1
  {
    batch.sends + [batch.closer]
  }

  function BlocksOf(batches: seq<Batch>): seq<Block> {
    if batches == [] then [] else BatchBlocks(batches[0]) + BlocksOf(batches[1..])
  }

  /** The pool's accounts one after the other. */
  function AllBlocks(accounts: seq<Account>): seq<Block> {
    if accounts == [] then [] else BlocksOf(accounts[0].batches) + AllBlocks(accounts[1..])
  }

  /** Where the account stands before its i-th batch. */
  function HeadAt(account: Account, i: nat): HashHeight
    requires i <= |account.batches|
  {
    if i == 0 then account.head else account.batches[i - 1].closer.id
  }

  ghost predicate LinksAt(bs: seq<Block>, j: nat, address: Bytes, head: HashHeight)
    requires j < |bs|
  {
    bs[j].address == address && Link(bs[j]) == if j == 0 then head else bs[j - 1].id
  }

  /** The batch's blocks link one by one onto the head; the receive lists its sends. */
  ghost predicate BatchFits(embedded: Bytes -> bool, address: Bytes, head: HashHeight, batch: Batch) {
    var bs := BatchBlocks(batch);
    && head.height + |bs| < TWO_64
    && (forall j :: 0 <= j < |bs| ==> LinksAt(bs, j, address, head))
    && (forall b :: b in batch.sends ==> b.blockType == CONTRACT_SEND && b.descendants == [] && embedded(address))
    && batch.closer.descendants == batch.sends && batch.closer.blockType != CONTRACT_SEND &&
        !IsBatched(embedded, batch.closer)
  }

  lemma {:induction false} BatchHeights(embedded: Bytes -> bool, address: Bytes, head: HashHeight, batch: Batch, j: nat)
    requires BatchFits(embedded, address, head, batch) && j <= |batch.sends|
    ensures BatchBlocks(batch)[j].id.height == head.height + j + 1
  {
    assert LinksAt(BatchBlocks(batch), j, address, head);
    if j > 0 { BatchHeights(embedded, address, head, batch, j - 1); }
  }

  /** The receive closes the batch from the head up. */
  lemma {:induction false} BatchCloses(embedded: Bytes -> bool, address: Bytes, head: HashHeight, batch: Batch)
    requires BatchFits(embedded, address, head, batch)
    ensures Previous(batch.closer) == head && batch.closer.id.height > head.height
  {
    var bs := BatchBlocks(batch);
    BatchHeights(embedded, address, head, batch, |batch.sends|);
    assert bs[|batch.sends|] == batch.closer && LinksAt(bs, 0, address, head);
    if batch.sends != [] { assert bs[0] == batch.sends[0] && batch.sends[0] in batch.sends; }
  }

  ghost predicate AccountFits(embedded: Bytes -> bool, account: Account) {
    forall i :: 0 <= i < |account.batches| ==>
        BatchFits(embedded, account.address, HeadAt(account, i), account.batches[i])
  }

  ghost predicate PoolFits(embedded: Bytes -> bool, accounts: seq<Account>) {
    && (forall k :: 0 <= k < |accounts| ==> AccountFits(embedded, accounts[k]))
    && (forall k, l :: 0 <= k < l < |accounts| ==> accounts[k].address != accounts[l].address)
  }

  ghost predicate DistinctIds(blocks: seq<Block>) {
    forall i, j :: 0 <= i < j < |blocks| ==> blocks[i].id != blocks[j].id
  }

  ghost predicate SendsAreSends(batches: seq<Batch>) {
    forall i, j :: 0 <= i < |batches| && 0 <= j < |batches[i].sends| ==> batches[i].sends[j].blockType == CONTRACT_SEND
  }

  /** A cut that leaves no send open falls between batches. */
  lemma {:induction false} CutBatches(batches: seq<Batch>, n: nat) returns (k: nat)
    requires SendsAreSends(batches)
    requires n <= |BlocksOf(batches)| && (n == 0 || BlocksOf(batches)[n - 1].blockType != CONTRACT_SEND)
    ensures k <= |batches| && BlocksOf(batches[..k]) == BlocksOf(batches)[..n]
    decreases |batches|
  {
    if n == 0 {
      k := 0;
    } else {
      var first := BatchBlocks(batches[0]);
      var j := CutBatches(batches[1..], n - |first|);
      k := j + 1;
      assert batches[..k][0] == batches[0] && batches[..k][1..] == batches[1..][..j];
      assert BlocksOf(batches)[..n] == first + BlocksOf(batches[1..])[..n - |first|];
    }
  }

  /** Per account a number of whole batches from the bottom. */
  ghost predicate Prefixes(some: seq<Account>, accounts: seq<Account>) {
    && |some| == |accounts|
    && forall k :: 0 <= k < |some| ==>
        && some[k].address == accounts[k].address && some[k].head == accounts[k].head
        && some[k].batches <= accounts[k].batches
  }

  lemma PrefixesNone()
    ensures Prefixes([], [])
  {
  }

  lemma PrefixesStep(kept: Account, others: seq<Account>, accounts: seq<Account>)
    requires accounts != [] && Prefixes(others, accounts[1..])
    requires kept.address == accounts[0].address && kept.head == accounts[0].head && kept.batches <= accounts[0].batches
    ensures Prefixes([kept] + others, accounts)
  {
  }

  lemma {:induction false} CutAccounts(accounts: seq<Account>, n: nat) returns (some: seq<Account>)
    requires forall k :: 0 <= k < |accounts| ==> SendsAreSends(accounts[k].batches)
    requires n <= |AllBlocks(accounts)| && (n == 0 || AllBlocks(accounts)[n - 1].blockType != CONTRACT_SEND)
    ensures Prefixes(some, accounts) && AllBlocks(some) == AllBlocks(accounts)[..n]
    decreases |accounts|
  {
    hide Prefixes;
    if accounts == [] {
      some := [];
      PrefixesNone();
    } else {
      var first, rest := BlocksOf(accounts[0].batches), AllBlocks(accounts[1..]);
      if n <= |first| {
        var k := CutBatches(accounts[0].batches, n);
        var others := CutAccounts(accounts[1..], 0);
        var kept := accounts[0].(batches := accounts[0].batches[..k]);
        some := [kept] + others;
        PrefixesStep(kept, others, accounts);
        assert some[1..] == others && AllBlocks(accounts)[..n] == first[..n] + rest[..0];
      } else {
        var others := CutAccounts(accounts[1..], n - |first|);
        some := [accounts[0]] + others;
        PrefixesStep(accounts[0], others, accounts);
        assert some[1..] == others && AllBlocks(accounts)[..n] == first + rest[..n - |first|];
      }
    }
  }

  lemma {:induction false} PrefixFits(embedded: Bytes -> bool, some: seq<Account>, accounts: seq<Account>)
    requires PoolFits(embedded, accounts) && Prefixes(some, accounts)
    ensures PoolFits(embedded, some)
  {
    hide BatchFits;
    forall k | 0 <= k < |some| ensures AccountFits(embedded, some[k]) {
      assert AccountFits(embedded, accounts[k]);
      forall i | 0 <= i < |some[k].batches|
        ensures BatchFits(embedded, some[k].address, HeadAt(some[k], i), some[k].batches[i])
      {
        assert BatchFits(embedded, accounts[k].address, HeadAt(accounts[k], i), accounts[k].batches[i]);
      }
    }
  }

  lemma {:induction false} FitsHasSends(embedded: Bytes -> bool, account: Account)
    requires AccountFits(embedded, account)
    ensures SendsAreSends(account.batches)
  {
    forall i, j | 0 <= i < |account.batches| && 0 <= j < |account.batches[i].sends|
      ensures account.batches[i].sends[j].blockType == CONTRACT_SEND
    {
      assert BatchFits(embedded, account.address, HeadAt(account, i), account.batches[i]);
      assert account.batches[i].sends[j] in account.batches[i].sends;
    }
  }

  /** What is chosen: at most a hundred blocks, whole batches, from the bottom of each
      account, and nothing more would fit. */
  lemma {:induction false} ChosenAreBatches(embedded: Bytes -> bool, accounts: seq<Account>)
    returns (some: seq<Account>)
    requires PoolFits(embedded, accounts)
    ensures Prefixes(some, accounts) && PoolFits(embedded, some)
    ensures Chosen(AllBlocks(accounts)) == AllBlocks(some) && |AllBlocks(some)| <= MAX_BLOCKS
    ensures var all, n := AllBlocks(accounts), |AllBlocks(some)|;
            forall k :: n <= k < |all| && all[k].blockType != CONTRACT_SEND ==> k >= MAX_BLOCKS
  {
    var all := AllBlocks(accounts);
    forall k | 0 <= k < |accounts| ensures SendsAreSends(accounts[k].batches) { FitsHasSends(embedded, accounts[k]); }
    some := CutAccounts(accounts, |Chosen(all)|);
    PrefixFits(embedded, some, accounts);
  }

  // ---- Headers in byte order ----

  function HeaderBytes(h: Header): Bytes { h.address + (Uint64ToBytes(h.id.height) + h.id.hash) }

  ghost predicate Ordered(headers: seq<Header>) {
    forall i, j :: 0 <= i < j < |headers| ==> !Less(HeaderBytes(headers[j]), HeaderBytes(headers[i]))
  }

  function HeadersOf(blocks: seq<Block>): (hs: seq<Header>)
    ensures |hs| == |blocks|
  {
    seq(|blocks|, i requires 0 <= i < |blocks| => HeaderOf(blocks[i]))
  }

  /** Within an account byte order is height order. */
  lemma {:induction false} OrderedByHeight(a: Header, b: Header)
    requires a.address == b.address && !Less(HeaderBytes(b), HeaderBytes(a))
    ensures a.id.height <= b.id.height
  {
    LessOnConcat(b.address, a.address, Uint64ToBytes(b.id.height) + b.id.hash, Uint64ToBytes(a.id.height) + a.id.hash);
    LessOnConcat(Uint64ToBytes(b.id.height), Uint64ToBytes(a.id.height), b.id.hash, a.id.hash);
    Uint64BytesOrder(b.id.height, a.id.height);
  }

  /** The order of headers: by address, then height, then hash. */
  lemma {:induction false} HeaderOrder(a: Header, b: Header)
    requires |a.address| == |b.address|
    ensures Less(HeaderBytes(a), HeaderBytes(b)) <==>
              || Less(a.address, b.address)
              || (a.address == b.address && a.id.height < b.id.height)
              || (a.address == b.address && a.id.height == b.id.height && Less(a.id.hash, b.id.hash))
  {
    LessOnConcat(a.address, b.address, Uint64ToBytes(a.id.height) + a.id.hash, Uint64ToBytes(b.id.height) + b.id.hash);
    LessOnConcat(Uint64ToBytes(a.id.height), Uint64ToBytes(b.id.height), a.id.hash, b.id.hash);
    Uint64BytesOrder(a.id.height, b.id.height);
  }

  function Insert(s: seq<Header>, x: Header): (r: seq<Header>)
    ensures multiset(r) == multiset(s) + multiset{x}
  {
    if s == [] || !Less(HeaderBytes(s[0]), HeaderBytes(x)) then
      assert multiset([x] + s) == multiset{x} + multiset(s);
      [x] + s
    else
      assert s == [s[0]] + s[1..];
      [s[0]] + Insert(s[1..], x)
  }

  lemma {:induction false} NotLessIsTransitive(a: Bytes, b: Bytes, c: Bytes)
    requires !Less(b, a) && !Less(c, b)
    ensures !Less(c, a)
  {
    if Less(c, a) {
      LessIsTotal(b, a);
      LessIsTotal(c, b);
      if a != b && b != c { LessIsTransitive(a, b, c); }
      LessIsAsymmetric(c, a);
    }
  }

  lemma {:induction false} InsertOrders(s: seq<Header>, x: Header)
    requires Ordered(s)
    ensures Ordered(Insert(s, x))
  {
    hide HeaderBytes;
    var r := Insert(s, x);
    if s == [] {
    } else if !Less(HeaderBytes(s[0]), HeaderBytes(x)) {
      forall i, j | 0 <= i < j < |r| ensures !Less(HeaderBytes(r[j]), HeaderBytes(r[i])) {
        if i == 0 && j > 1 { NotLessIsTransitive(HeaderBytes(x), HeaderBytes(s[0]), HeaderBytes(s[j - 1])); }
      }
    } else {
      var t := Insert(s[1..], x);
      InsertOrders(s[1..], x);
      LessIsAsymmetric(HeaderBytes(s[0]), HeaderBytes(x));
      forall j | 0 <= j < |t| ensures !Less(HeaderBytes(t[j]), HeaderBytes(s[0])) {
        assert t[j] in multiset(t);
        assert t[j] == x || t[j] in s[1..];
      }
    }
  }

  /** `NewMomentumContent`: the headers of the blocks, sorted. */
  method NewMomentumContent(blocks: seq<Block>) returns (content: seq<Header>)
    ensures Ordered(content) && multiset(content) == multiset(HeadersOf(blocks))
  {
    content := [];
    for k := 0 to |blocks|
      invariant Ordered(content) && multiset(content) == multiset(HeadersOf(blocks)[..k])
    {
      InsertOrders(content, HeaderOf(blocks[k]));
      content := Insert(content, HeaderOf(blocks[k]));
      assert HeadersOf(blocks)[..k + 1] == HeadersOf(blocks)[..k] + [HeaderOf(blocks[k])];
    }
    assert HeadersOf(blocks)[..|blocks|] == HeadersOf(blocks);
  }

  // ---- The check on a received momentum ----

  datatype Verdict = Passed | TooBig | SizeDiffers | Crash | Gap

  function Lookup(blocks: seq<Block>): map<HashHeight, Block> {
    if blocks == [] then map[] else Lookup(blocks[..|blocks| - 1])[blocks[|blocks| - 1].id := blocks[|blocks| - 1]]
  }

  /** What the check is given: prefetched blocks by identifier, and where each account stands. */
  datatype Context = Context(embedded: Bytes -> bool, lookup: map<HashHeight, Block>, frontier: Bytes -> HashHeight)

  /** The account's last identifier before the n-th header; sends inside batches do not count. */
  function HeadBefore(c: Context, headers: seq<Header>, n: nat, address: Bytes): HashHeight
    requires n <= |headers|
  {
    if n == 0 then c.frontier(address)
    else
      var h := headers[n - 1];
      if h.address == address && h.id in c.lookup && !IsBatched(c.embedded, c.lookup[h.id]) then c.lookup[h.id].id
      else HeadBefore(c, headers, n - 1, address)
  }

  /** A header is in order when its block is inside a batch or continues its account. */
  predicate InOrder(c: Context, headers: seq<Header>, n: nat)
    requires n < |headers| && headers[n].id in c.lookup
  {
    var block := c.lookup[headers[n].id];
    IsBatched(c.embedded, block) || Previous(block) == HeadBefore(c, headers, n, headers[n].address)
  }

  /** The first header that is missing or out of order decides. A header without a
      block crashes: the block is used before it is known to exist. */
  function Walk(c: Context, headers: seq<Header>, n: nat): Verdict
    requires n <= |headers|
    decreases |headers| - n
  {
    if n == |headers| then Passed
    else if headers[n].id !in c.lookup then Crash
    else if !InOrder(c, headers, n) then Gap
    else Walk(c, headers, n + 1)
  }

  function ContentVerdict(embedded: Bytes -> bool, headers: seq<Header>, blocks: seq<Block>,
          frontier: Bytes -> HashHeight): Verdict {
    if |headers| > MAX_BLOCKS then TooBig
    else if |Lookup(blocks)| != |headers| then SizeDiffers
    else Walk(Context(embedded, Lookup(blocks), frontier), headers, 0)
  }

  /** Accepted exactly when every header has a block that is in order. */
  lemma {:induction false} WalkPasses(c: Context, headers: seq<Header>, n: nat)
    requires n <= |headers|
    ensures Walk(c, headers, n) == Passed <==>
        forall k :: n <= k < |headers| ==> headers[k].id in c.lookup && InOrder(c, headers, k)
    decreases |headers| - n
  {
    hide InOrder;
    if n < |headers| { WalkPasses(c, headers, n + 1); }
  }

  /** It crashes exactly when some header has no block and those before it are in order. */
  lemma {:induction false} CrashExactly(c: Context, headers: seq<Header>, n: nat)
    requires n <= |headers|
    ensures Walk(c, headers, n) == Crash <==>
            exists k :: && n <= k < |headers| && headers[k].id !in c.lookup
                        && forall j :: n <= j < k ==> headers[j].id in c.lookup && InOrder(c, headers, j)
    decreases |headers| - n
  {
    hide InOrder;
    if n < |headers| { CrashExactly(c, headers, n + 1); }
  }

  lemma {:induction false} LookupHas(blocks: seq<Block>, k: nat)
    requires k < |blocks|
    ensures blocks[k].id in Lookup(blocks)
  {
    if k < |blocks| - 1 { LookupHas(blocks[..|blocks| - 1], k); }
  }

  /** No crash when every header's identifier is among the prefetched blocks. */
  lemma {:induction false} CompleteNeverCrashes(embedded: Bytes -> bool, headers: seq<Header>, blocks: seq<Block>,
          frontier: Bytes -> HashHeight)
    requires forall i :: 0 <= i < |headers| ==> exists k :: 0 <= k < |blocks| && blocks[k].id == headers[i].id
    ensures ContentVerdict(embedded, headers, blocks, frontier) != Crash
  {
    var c := Context(embedded, Lookup(blocks), frontier);
    forall i | 0 <= i < |headers| ensures headers[i].id in c.lookup {
      var k :| 0 <= k < |blocks| && blocks[k].id == headers[i].id;
      LookupHas(blocks, k);
    }
    CrashExactly(c, headers, 0);
  }

  /** One header and one block with another identifier: the sizes agree, the block is missing. */
  lemma {:induction false} MissingBlockCrashes(embedded: Bytes -> bool, header: Header, block: Block,
          frontier: Bytes -> HashHeight)
    requires header.id != block.id
    ensures ContentVerdict(embedded, [header], [block], frontier) == Crash
  {
    assert [block][..0] == [];
    assert Lookup([block]) == map[block.id := block];
  }

  // ---- What acceptance means ----

  /** The last of the prefetched blocks with an identifier answers for it. */
  ghost predicate IsLastOf(blocks: seq<Block>, k: nat, id: HashHeight) {
    k < |blocks| && blocks[k].id == id && forall j :: k < j < |blocks| ==> blocks[j].id != id
  }

  lemma {:induction false} LookupExactly(blocks: seq<Block>, id: HashHeight, k: nat)
    ensures id in Lookup(blocks) <==> exists j :: 0 <= j < |blocks| && blocks[j].id == id
    ensures IsLastOf(blocks, k, id) ==> id in Lookup(blocks) && Lookup(blocks)[id] == blocks[k]
  {
    if blocks != [] {
      var n := |blocks| - 1;
      var less := blocks[..n];
      LookupExactly(less, id, k);
      if j :| 0 <= j < n && less[j].id == id { assert blocks[j].id == id; }
      if j :| 0 <= j < |blocks| && blocks[j].id == id { if j < n { assert less[j].id == id; } }
      if IsLastOf(blocks, k, id) && k < n { assert IsLastOf(less, k, id); }
    }
  }

  function Ids(blocks: seq<Block>): set<HashHeight> {
    set k | 0 <= k < |blocks| :: blocks[k].id
  }

  lemma {:induction false} LookupCounts(blocks: seq<Block>)
    ensures |Lookup(blocks)| == |Ids(blocks)|
  {
    forall id ensures id in Lookup(blocks).Keys <==> id in Ids(blocks) { LookupExactly(blocks, id, 0); }
    assert Lookup(blocks).Keys == Ids(blocks);
  }

  /** The blocks listed for an account, without the sends a contract makes in a batch. */
  function Trail(c: Context, headers: seq<Header>, address: Bytes): seq<Block> {
    if headers == [] then []
    else
      var h := headers[|headers| - 1];
      Trail(c, headers[..|headers| - 1], address) +
      if h.address != address || h.id !in c.lookup then []
      else
        var b := c.lookup[h.id];
        if (b.blockType == USER_SEND || b.blockType == CONTRACT_SEND) && c.embedded(b.address) then [] else [b]
  }

  /** They continue the account: the first its frontier, each other the one before. */
  ghost predicate Continues(head: HashHeight, bs: seq<Block>) {
    forall i :: 0 <= i < |bs| ==> Follows(head, bs, i)
  }

  ghost predicate Follows(head: HashHeight, bs: seq<Block>, i: nat)
    requires i < |bs|
  {
    Previous(bs[i]) == if i == 0 then head else bs[i - 1].id
  }

  ghost predicate Fine(c: Context, headers: seq<Header>) {
    && (forall k :: 0 <= k < |headers| ==> headers[k].id in c.lookup)
    && (forall a :: Continues(c.frontier(a), Trail(c, headers, a)))
  }

  function LastId(head: HashHeight, bs: seq<Block>): HashHeight { if bs == [] then head else bs[|bs| - 1].id }

  lemma {:induction false} HeadIsLast(c: Context, headers: seq<Header>, n: nat, address: Bytes)
    requires n <= |headers|
    ensures HeadBefore(c, headers, n, address) == LastId(c.frontier(address), Trail(c, headers[..n], address))
  {
    if n > 0 {
      HeadIsLast(c, headers, n - 1, address);
      assert headers[..n][..n - 1] == headers[..n - 1];
    }
  }

  lemma ContinuesStep(head: HashHeight, bs: seq<Block>, b: Block)
    ensures Continues(head, bs + [b]) <==> Continues(head, bs) && Previous(b) == LastId(head, bs)
  {
    var more := bs + [b];
    forall i | 0 <= i < |bs| ensures Follows(head, more, i) <==> Follows(head, bs, i) {}
    assert Follows(head, more, |bs|) <==> Previous(b) == LastId(head, bs);
  }

  /** One more header is fine exactly when it has a block that is in order. */
  lemma {:induction false} FineStep(c: Context, headers: seq<Header>, n: nat)
    requires n < |headers|
    ensures Fine(c, headers[..n + 1]) <==>
            Fine(c, headers[..n]) && headers[n].id in c.lookup && InOrder(c, headers, n)
  {
    hide Continues;
    var less, more, h := headers[..n], headers[..n + 1], headers[n];
    assert more[..n] == less && more[n] == h;
    assert forall k :: 0 <= k < n ==> more[k] == less[k];
    forall a | a != h.address || h.id !in c.lookup ensures Trail(c, more, a) == Trail(c, less, a) {}
    if h.id in c.lookup {
      var b := c.lookup[h.id];
      HeadIsLast(c, headers, n, h.address);
      var trail := Trail(c, less, h.address);
      ContinuesStep(c.frontier(h.address), trail, b);
      assert Trail(c, more, h.address) == if IsBatched(c.embedded, b) then trail else trail + [b];
    }
  }

  lemma {:induction false} FineLess(c: Context, headers: seq<Header>, i: nat, j: nat)
    requires i <= j <= |headers|
    ensures Fine(c, headers[..j]) ==> Fine(c, headers[..i])
    decreases j - i
  {
    hide InOrder, Fine;
    if i < j {
      FineLess(c, headers, i, j - 1);
      FineStep(c, headers, j - 1);
    }
  }

  lemma NoneFine(c: Context)
    ensures Fine(c, [])
  {
  }

  /** The headers before the k-th are fine, and it has no block. */
  ghost predicate MissingAt(c: Context, headers: seq<Header>, k: nat) {
    k < |headers| && Fine(c, headers[..k]) && headers[k].id !in c.lookup
  }

  /** The headers before the k-th are fine, it has a block, and with it they are not. */
  ghost predicate GapAt(c: Context, headers: seq<Header>, k: nat) {
    k < |headers| && Fine(c, headers[..k]) && headers[k].id in c.lookup && !Fine(c, headers[..k + 1])
  }

  /** Each verdict of the walk exactly for its headers. */
  lemma {:induction false} WalkExactly(c: Context, headers: seq<Header>, n: nat)
    requires n <= |headers| && Fine(c, headers[..n])
    ensures Walk(c, headers, n) in {Passed, Crash, Gap}
    ensures Walk(c, headers, n) == Passed <==> Fine(c, headers)
    ensures Walk(c, headers, n) == Crash <==> exists k :: n <= k && MissingAt(c, headers, k)
    ensures Walk(c, headers, n) == Gap <==> exists k :: n <= k && GapAt(c, headers, k)
    decreases |headers| - n
  {
    hide InOrder, Fine;
    assert headers[..|headers|] == headers;
    if n < |headers| {
      FineStep(c, headers, n);
      FineLess(c, headers, n + 1, |headers|);
      forall k | n < k < |headers| ensures Fine(c, headers[..k]) ==> Fine(c, headers[..n + 1]) {
        FineLess(c, headers, n + 1, k);
      }
      if headers[n].id !in c.lookup {
        assert MissingAt(c, headers, n);
      } else if !InOrder(c, headers, n) {
        assert GapAt(c, headers, n);
      } else {
        WalkExactly(c, headers, n + 1);
      }
    }
  }

  /** Each verdict exactly for its content; the sizes come first. */
  lemma {:induction false} VerdictExactly(embedded: Bytes -> bool, headers: seq<Header>, blocks: seq<Block>,
          frontier: Bytes -> HashHeight)
    ensures var c := Context(embedded, Lookup(blocks), frontier);
            var v := ContentVerdict(embedded, headers, blocks, frontier);
            && (v == TooBig <==> |headers| > 100)
            && (v == SizeDiffers <==> |headers| <= 100 && |Ids(blocks)| != |headers|)
            && (v == Passed <==> |headers| <= 100 && |Ids(blocks)| == |headers| && Fine(c, headers))
            && (v == Crash <==>
                  |headers| <= 100 && |Ids(blocks)| == |headers| && exists k :: MissingAt(c, headers, k))
            && (v == Gap <==>
                  |headers| <= 100 && |Ids(blocks)| == |headers| && exists k :: GapAt(c, headers, k))
  {
    hide Fine, Lookup, Walk;
    var c := Context(embedded, Lookup(blocks), frontier);
    LookupCounts(blocks);
    NoneFine(c);
    assert headers[..0] == [];
    WalkExactly(c, headers, 0);
  }

  /** One header whose block does not sit on the account's frontier is refused. */
  lemma {:induction false} GapIsRefused(embedded: Bytes -> bool, b: Block, frontier: Bytes -> HashHeight)
    requires !embedded(b.address) && Previous(b) != frontier(b.address)
    ensures ContentVerdict(embedded, [HeaderOf(b)], [b], frontier) == Gap
  {
    assert [b][..0] == [];
    assert Lookup([b]) == map[b.id := b];
  }

  /** The loop with its map of heads. */
  method Content(embedded: Bytes -> bool, headers: seq<Header>, blocks: seq<Block>, frontier: Bytes -> HashHeight)
    returns (verdict: Verdict)
    ensures verdict == ContentVerdict(embedded, headers, blocks, frontier)
  {
    if |headers| > MAX_BLOCKS {
      return TooBig;
    }
    var blocksLookup := BuildLookup(blocks);
    if |blocksLookup| != |headers| {
      return SizeDiffers;
    }
    ghost var c := Context(embedded, blocksLookup, frontier);
    var heads: map<Bytes, HashHeight> := map[];
    for n := 0 to |headers|
      invariant Walk(c, headers, n) == Walk(c, headers, 0)
      invariant forall a :: (if a in heads then heads[a] else frontier(a)) == HeadBefore(c, headers, n, a)
    {
      var header := headers[n];
      var previous := if header.address in heads then heads[header.address] else frontier(header.address);
      if header.id !in blocksLookup {
        return Crash;
      }
      var block := blocksLookup[header.id];
      if IsBatched(embedded, block) {
        continue;
      }
      if Previous(block) != previous {
        return Gap;
      }
      heads := heads[header.address := block.id];
    }
    return Passed;
  }

  method BuildLookup(blocks: seq<Block>) returns (lookup: map<HashHeight, Block>)
    ensures lookup == Lookup(blocks)
  {
    lookup := map[];
    for k := 0 to |blocks|
      invariant lookup == Lookup(blocks[..k])
    {
      assert blocks[..k + 1][..k] == blocks[..k];
      lookup := lookup[blocks[k].id := blocks[k]];
    }
    assert blocks[..|blocks|] == blocks;
  }

  // ---- What is chosen is accepted ----

  lemma {:induction false} LookupFinds(blocks: seq<Block>, k: nat)
    requires DistinctIds(blocks) && k < |blocks|
    ensures blocks[k].id in Lookup(blocks) && Lookup(blocks)[blocks[k].id] == blocks[k]
  {
    var n := |blocks| - 1;
    if k < n { LookupFinds(blocks[..n], k); }
  }

  lemma {:induction false} LookupSize(blocks: seq<Block>)
    requires DistinctIds(blocks)
    ensures |Lookup(blocks)| == |blocks|
    ensures forall id :: id in Lookup(blocks) <==> exists k :: 0 <= k < |blocks| && blocks[k].id == id
  {
    if blocks != [] {
      var n := |blocks| - 1;
      LookupSize(blocks[..n]);
      var rest := Lookup(blocks[..n]);
      assert blocks[n].id !in rest;
      assert Lookup(blocks).Keys == rest.Keys + {blocks[n].id};
      forall id ensures id in Lookup(blocks) <==> exists k :: 0 <= k < |blocks| && blocks[k].id == id {
        if k :| 0 <= k < n && blocks[..n][k].id == id { assert blocks[k].id == id; }
        if k :| 0 <= k < |blocks| && blocks[k].id == id { if k < n { assert blocks[..n][k].id == id; } }
      }
    }
  }

  /** A block of the pool belongs to a batch of an account. */
  lemma {:induction false} FindBatch(batches: seq<Batch>, b: Block) returns (i: nat)
    requires b in BlocksOf(batches)
    ensures i < |batches| && b in BatchBlocks(batches[i])
    decreases |batches|
  {
    if b in BatchBlocks(batches[0]) {
      i := 0;
    } else {
      var j := FindBatch(batches[1..], b);
      i := j + 1;
    }
  }

  lemma {:induction false} FindAccount(accounts: seq<Account>, b: Block) returns (k: nat, i: nat)
    requires b in AllBlocks(accounts)
    ensures k < |accounts| && i < |accounts[k].batches| && b in BatchBlocks(accounts[k].batches[i])
    decreases |accounts|
  {
    if b in BlocksOf(accounts[0].batches) {
      k := 0;
      i := FindBatch(accounts[0].batches, b);
    } else {
      var l, j := FindAccount(accounts[1..], b);
      k, i := l + 1, j;
    }
  }

  lemma {:induction false} BatchIsThere(batches: seq<Batch>, i: nat, b: Block)
    requires i < |batches| && b in BatchBlocks(batches[i])
    ensures b in BlocksOf(batches)
    decreases |batches|
  {
    if i > 0 { BatchIsThere(batches[1..], i - 1, b); }
  }

  lemma {:induction false} BlockIsThere(accounts: seq<Account>, k: nat, i: nat, b: Block)
    requires k < |accounts| && i < |accounts[k].batches| && b in BatchBlocks(accounts[k].batches[i])
    ensures b in AllBlocks(accounts)
    decreases |accounts|
  {
    if k == 0 { BatchIsThere(accounts[0].batches, i, b); } else { BlockIsThere(accounts[1..], k - 1, i, b); }
  }

  /** Headers of an account's blocks in byte order, on top of where accounts stand. */
  ghost predicate Lists(c: Context, accounts: seq<Account>, headers: seq<Header>) {
    var blocks := AllBlocks(accounts);
    && PoolFits(c.embedded, accounts) && DistinctIds(blocks) && c.lookup == Lookup(blocks)
    && Ordered(headers) && multiset(headers) == multiset(HeadersOf(blocks))
    && forall k :: 0 <= k < |accounts| ==> c.frontier(accounts[k].address) == accounts[k].head
  }

  lemma {:induction false} CountOnce(blocks: seq<Block>, h: Header)
    requires DistinctIds(blocks)
    ensures multiset(HeadersOf(blocks))[h] <= 1
  {
    if blocks != [] {
      var n := |blocks| - 1;
      var hs, rest := HeadersOf(blocks), HeadersOf(blocks[..n]);
      assert hs == rest + [HeaderOf(blocks[n])];
      CountOnce(blocks[..n], h);
      forall k | 0 <= k < n ensures rest[k] != HeaderOf(blocks[n]) {}
      assert HeaderOf(blocks[n]) !in rest;
    }
  }

  lemma {:induction false} NoHeaderTwice(blocks: seq<Block>, headers: seq<Header>, p: nat, q: nat)
    requires DistinctIds(blocks) && multiset(headers) == multiset(HeadersOf(blocks)) && p < q < |headers|
    ensures headers[p] != headers[q]
  {
    CountOnce(blocks, headers[p]);
    var a, b := headers[..q], headers[q..];
    assert headers == a + b;
    assert a[p] == headers[p] && headers[p] in multiset(a);
    assert b[0] == headers[q] && headers[q] in multiset(b);
  }

  /** The block behind a header, and its place in the pool. */
  lemma {:induction false} BlockBehind(c: Context, accounts: seq<Account>, headers: seq<Header>, p: nat)
    returns (k: nat, i: nat)
    requires Lists(c, accounts, headers) && p < |headers|
    ensures headers[p].id in c.lookup && k < |accounts| && i < |accounts[k].batches|
    ensures var b := c.lookup[headers[p].id]; HeaderOf(b) == headers[p] && b in BatchBlocks(accounts[k].batches[i])
  {
    hide PoolFits, Ordered;
    var blocks := AllBlocks(accounts);
    assert headers[p] in multiset(HeadersOf(blocks));
    var q :| 0 <= q < |blocks| && HeadersOf(blocks)[q] == headers[p];
    LookupFinds(blocks, q);
    k, i := FindAccount(accounts, blocks[q]);
  }

  /** Blocks inside a batch carry the account's address; all but the last are skipped. */
  lemma {:induction false} InBatch(embedded: Bytes -> bool, accounts: seq<Account>, k: nat, i: nat, b: Block)
    requires PoolFits(embedded, accounts) && k < |accounts| && i < |accounts[k].batches|
    requires b in BatchBlocks(accounts[k].batches[i])
    ensures b.address == accounts[k].address
    ensures IsBatched(embedded, b) <==> b != accounts[k].batches[i].closer
  {
    var batch := accounts[k].batches[i];
    assert AccountFits(embedded, accounts[k]);
    assert BatchFits(embedded, accounts[k].address, HeadAt(accounts[k], i), batch);
    var j :| 0 <= j <= |batch.sends| && BatchBlocks(batch)[j] == b;
    assert LinksAt(BatchBlocks(batch), j, accounts[k].address, HeadAt(accounts[k], i));
    if j < |batch.sends| { assert batch.sends[j] in batch.sends; }
  }

  lemma {:induction false} HeightsRise(embedded: Bytes -> bool, account: Account, i: nat, j: nat)
    requires AccountFits(embedded, account) && i < j < |account.batches|
    ensures account.batches[i].closer.id.height < account.batches[j].closer.id.height
  {
    hide BatchFits;
    assert BatchFits(embedded, account.address, HeadAt(account, j), account.batches[j]);
    BatchCloses(embedded, account.address, HeadAt(account, j), account.batches[j]);
    if i < j - 1 { HeightsRise(embedded, account, i, j - 1); }
  }

  function CloserHeader(accounts: seq<Account>, k: nat, i: nat): Header
    requires k < |accounts| && i < |accounts[k].batches|
  {
    HeaderOf(accounts[k].batches[i].closer)
  }

  lemma {:induction false} CloserListed(c: Context, accounts: seq<Account>, headers: seq<Header>, k: nat, i: nat)
    returns (q: nat)
    requires Lists(c, accounts, headers) && k < |accounts| && i < |accounts[k].batches|
    ensures q < |headers| && headers[q] == CloserHeader(accounts, k, i)
    ensures var b := accounts[k].batches[i].closer;
        b.id in c.lookup && c.lookup[b.id] == b && !IsBatched(c.embedded, b) && b.address == accounts[k].address
  {
    hide PoolFits, Ordered;
    var blocks, b := AllBlocks(accounts), accounts[k].batches[i].closer;
    BlockIsThere(accounts, k, i, b);
    var n :| 0 <= n < |blocks| && blocks[n] == b;
    LookupFinds(blocks, n);
    assert HeadersOf(blocks)[n] in multiset(headers);
    q :| 0 <= q < |headers| && headers[q] == HeaderOf(b);
    InBatch(c.embedded, accounts, k, i, b);
  }

  /** Receives of an account are listed in the order of its batches. */
  lemma {:induction false} ListedInTurn(c: Context, accounts: seq<Account>, headers: seq<Header>, k: nat, i: nat,
          j: nat, p: nat, q: nat)
    requires Lists(c, accounts, headers) && k < |accounts| && i < j < |accounts[k].batches| && p < |headers|
    requires q < |headers|
    requires headers[p] == CloserHeader(accounts, k, i) && headers[q] == CloserHeader(accounts, k, j)
    ensures p < q
  {
    assert AccountFits(c.embedded, accounts[k]);
    HeightsRise(c.embedded, accounts[k], i, j);
    var _ := CloserListed(c, accounts, headers, k, i);
    var _ := CloserListed(c, accounts, headers, k, j);
    if q < p { OrderedByHeight(headers[q], headers[p]); }
  }

  /** The account stands before its i-th batch. */
  ghost predicate Stands(accounts: seq<Account>, headers: seq<Header>, p: nat, k: nat, i: nat)
    requires p <= |headers| && k < |accounts| && i <= |accounts[k].batches|
  {
    && (i > 0 ==> CloserHeader(accounts, k, i - 1) in headers[..p])
    && (i < |accounts[k].batches| ==> CloserHeader(accounts, k, i) !in headers[..p])
  }

  lemma {:induction false} LastCloser(c: Context, accounts: seq<Account>, headers: seq<Header>, p: nat, k: nat,
          i: nat, j: nat)
    requires Lists(c, accounts, headers) && 0 < p <= |headers| && k < |accounts| && i <= |accounts[k].batches|
    requires j < |accounts[k].batches|
    requires Stands(accounts, headers, p, k, i) && headers[p - 1] == CloserHeader(accounts, k, j)
    ensures j == i - 1
  {
    hide Lists;
    assert headers[..p][p - 1] == headers[p - 1];
    if j > i {
      var q := CloserListed(c, accounts, headers, k, i);
      ListedInTurn(c, accounts, headers, k, i, j, q, p - 1);
    }
    if j < i - 1 {
      var q :| 0 <= q < p && headers[..p][q] == CloserHeader(accounts, k, i - 1);
      ListedInTurn(c, accounts, headers, k, j, i - 1, p - 1, q);
    }
  }

  lemma {:induction false} FrontierGiven(c: Context, accounts: seq<Account>, headers: seq<Header>, k: nat)
    requires Lists(c, accounts, headers) && k < |accounts|
    ensures c.frontier(accounts[k].address) == accounts[k].head && PoolFits(c.embedded, accounts)
    ensures forall l :: 0 <= l < |accounts| && accounts[l].address == accounts[k].address ==> l == k
  {
  }

  /** Where the check has an account before a batch is where the batch links to. */
  lemma {:induction false} HeadBeforeBatch(c: Context, accounts: seq<Account>, headers: seq<Header>, p: nat, k: nat,
          i: nat)
    requires Lists(c, accounts, headers) && p <= |headers| && k < |accounts| && i <= |accounts[k].batches|
    requires Stands(accounts, headers, p, k, i)
    ensures HeadBefore(c, headers, p, accounts[k].address) == HeadAt(accounts[k], i)
  {
    hide Lists, PoolFits;
    FrontierGiven(c, accounts, headers, k);
    if p > 0 {
      var h := headers[p - 1];
      var l, j := BlockBehind(c, accounts, headers, p - 1);
      var b := c.lookup[h.id];
      InBatch(c.embedded, accounts, l, j, b);
      if h.address == accounts[k].address && !IsBatched(c.embedded, b) {
        LastCloser(c, accounts, headers, p, k, i, j);
      } else {
        if i > 0 {
          var _ := CloserListed(c, accounts, headers, k, i - 1);
          var q :| 0 <= q < p && headers[..p][q] == CloserHeader(accounts, k, i - 1);
          assert headers[..p - 1][q] == headers[q];
        }
        HeadBeforeBatch(c, accounts, headers, p - 1, k, i);
      }
    }
  }

  lemma {:induction false} ListedInOrder(c: Context, accounts: seq<Account>, headers: seq<Header>, p: nat)
    requires Lists(c, accounts, headers) && p < |headers|
    ensures headers[p].id in c.lookup && InOrder(c, headers, p)
  {
    var k, i := BlockBehind(c, accounts, headers, p);
    var b := c.lookup[headers[p].id];
    InBatch(c.embedded, accounts, k, i, b);
    if !IsBatched(c.embedded, b) {
      CloserStands(c, accounts, headers, p, k, i);
      HeadBeforeBatch(c, accounts, headers, p, k, i);
      assert AccountFits(c.embedded, accounts[k]);
      BatchCloses(c.embedded, accounts[k].address, HeadAt(accounts[k], i), accounts[k].batches[i]);
    }
  }

  lemma {:induction false} CloserStands(c: Context, accounts: seq<Account>, headers: seq<Header>, p: nat, k: nat,
          i: nat)
    requires Lists(c, accounts, headers) && p < |headers| && k < |accounts| && i < |accounts[k].batches|
    requires headers[p] == CloserHeader(accounts, k, i)
    ensures Stands(accounts, headers, p, k, i)
  {
    hide Lists;
    if i > 0 {
      var q := CloserListed(c, accounts, headers, k, i - 1);
      ListedInTurn(c, accounts, headers, k, i - 1, i, q, p);
      assert headers[..p][q] == headers[q];
    }
    ListedOnce(c, accounts, headers, p);
  }

  lemma {:induction false} ListedOnce(c: Context, accounts: seq<Account>, headers: seq<Header>, p: nat)
    requires Lists(c, accounts, headers) && p < |headers|
    ensures headers[p] !in headers[..p]
  {
    hide PoolFits, Ordered;
    forall q | 0 <= q < p ensures headers[..p][q] != headers[p] { NoHeaderTwice(AllBlocks(accounts), headers, q, p); }
  }

  /** Whatever the pool holds, the content made from it passes the check: for any
      order the sort may leave the headers in. */
  lemma {:induction false} ChosenContentPasses(embedded: Bytes -> bool, accounts: seq<Account>, headers: seq<Header>,
          frontier: Bytes -> HashHeight)
    requires PoolFits(embedded, accounts) && DistinctIds(AllBlocks(accounts))
    requires forall k :: 0 <= k < |accounts| ==> frontier(accounts[k].address) == accounts[k].head
    requires Ordered(headers) && multiset(headers) == multiset(HeadersOf(Chosen(AllBlocks(accounts))))
    ensures ContentVerdict(embedded, headers, Chosen(AllBlocks(accounts)), frontier) == Passed
  {
    var some := ChosenAreBatches(embedded, accounts);
    var blocks := AllBlocks(some);
    var c := Context(embedded, Lookup(blocks), frontier);
    assert |multiset(headers)| == |multiset(HeadersOf(blocks))|;
    LookupSize(blocks);
    assert Lists(c, some, headers) by { assert forall k :: 0 <= k < |some| ==> some[k].address == accounts[k].address; }
    forall p | 0 <= p < |headers| ensures headers[p].id in c.lookup && InOrder(c, headers, p) {
      ListedInOrder(c, some, headers, p);
    }
    WalkPasses(c, headers, 0);
  }
}
