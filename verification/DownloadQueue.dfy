/** The block download scheduler: a priority queue of hashes, requests in flight
    per peer, and a sliding cache of downloaded blocks. */
module DownloadQueue {
  import opened Bytes
  import opened Sets

  type Hash = Bytes
  type Peer = string

  datatype Block = Block(hash: Hash, height: nat, origin: Peer)
  datatype Request = Request(hashes: map<Hash, int>, time: int)

  /** The fields of the queue as one value. */
  datatype Sched = Sched(
    pool: map<Hash, int>, queue: map<Hash, int>, counter: nat,
    pending: map<Peer, Request>,
    blocks: map<Hash, nat>, cache: seq<Option<Block>>, offset: nat)

  // ---- Where every hash is ----

  /** The one place of a scheduled hash that was not taken yet: queued, in one
      peer's request, in the hands of a running operation, registered as downloaded,
      or lost, that is in the pool and nowhere to be fetched from. */
  datatype Place = Queued | InFlight(peer: Peer) | InHand | Downloaded | Lost

  type Where = map<Hash, Place>

  predicate IsAt(where: Where, h: Hash, p: Place) {
    h in where && where[h] == p
  }

  /** The fields agree on the place of h. `loose` holds the hashes in hand. */
  ghost predicate Spot(s: Sched, loose: map<Hash, int>, where: Where, h: Hash) {
    && (h in s.pool <==> h in where && where[h] != Downloaded)
    && (h in s.queue <==> IsAt(where, h, Queued))
    && (h in loose <==> IsAt(where, h, InHand))
    && (h in s.blocks <==> IsAt(where, h, Downloaded))
    && (forall p :: p in s.pending && h in s.pending[p].hashes <==> IsAt(where, h, InFlight(p)))
  }

  ghost predicate Placed(s: Sched, loose: map<Hash, int>, where: Where) {
    forall h :: Spot(s, loose, where, h)
  }

  /** Whatever place a hash is in, it carries the priority it was scheduled with. */
  ghost predicate Keeps(prio: map<Hash, int>, m: map<Hash, int>) {
    forall h :: h in m ==> h in prio && m[h] == prio[h]
  }

  ghost predicate Priorities(s: Sched, loose: map<Hash, int>, prio: map<Hash, int>) {
    && Keeps(prio, s.queue) && Keeps(prio, loose)
    && (forall p :: p in s.pending ==> Keeps(prio, s.pending[p].hashes))
  }

  /** The hashes that count against the cache. */
  function Busy(where: Where): set<Hash> {
    set h | h in where && where[h] != Queued && where[h] != Lost
  }

  function LostOf(where: Where): set<Hash> {
    set h | h in where && where[h] == Lost
  }

  /** A cached block sits at the slot of its height and is registered as downloaded. */
  ghost predicate Slotted(cache: seq<Option<Block>>, blocks: map<Hash, nat>, offset: nat) {
    forall i :: 0 <= i < |cache| && cache[i].Some? ==>
      && cache[i].value.height == offset + i
      && cache[i].value.hash in blocks && blocks[cache[i].value.hash] == offset + i
  }

  /** What was scheduled: the place and priority of each hash, the hashes in insertion
      order, how many blocks were taken, and the hashes of those. */
  datatype Plan = Plan(where: Where, prio: map<Hash, int>, sched: seq<Hash>, taken: nat, out: seq<Hash>)

  /** No hash is lost and none is doubled: what was scheduled is in its place or was taken. */
  ghost predicate Balanced(plan: Plan) {
    |plan.out| == plan.taken && multiset(plan.sched) == multiset(plan.where.Keys) + multiset(plan.out)
  }

  lemma {:induction false} Rebalanced(plan: Plan, plan': Plan)
    requires Balanced(plan) && plan' == plan.(where := plan'.where) && forall h :: h in plan'.where <==> h in plan.where
    ensures Balanced(plan')
  {
    assert plan'.where.Keys == plan.where.Keys;
  }

  ghost predicate Inv(s: Sched, loose: map<Hash, int>, plan: Plan) {
    && Placed(s, loose, plan.where)
    && Priorities(s, loose, plan.prio)
    && |Busy(plan.where)| <= |s.cache| / 2
    && Slotted(s.cache, s.blocks, s.offset)
    && Balanced(plan)
  }

  predicate Distinct(hashes: seq<Hash>) {
    forall i, j :: 0 <= i < j < |hashes| ==> hashes[i] != hashes[j]
  }

  ghost predicate Cached(cache: seq<Option<Block>>, h: Hash) {
    exists i :: 0 <= i < |cache| && cache[i].Some? && cache[i].value.hash == h
  }

  /** Every block registered as downloaded is still in the slot of its height. */
  ghost predicate Kept(cache: seq<Option<Block>>, blocks: map<Hash, nat>, offset: nat) {
    forall h :: h in blocks ==> InSlot(cache, blocks[h], offset, h)
  }

  ghost predicate InSlot(cache: seq<Option<Block>>, height: nat, offset: nat, h: Hash) {
    && offset <= height < offset + |cache|
    && cache[height - offset].Some? && cache[height - offset].value.hash == h
  }

  ghost predicate Scheduled(plan: Plan, h: Hash) {
    exists i :: plan.taken <= i < |plan.sched| && plan.sched[i] == h
  }

  /** The i-th scheduled hash, not yet taken: its height is offset + i - taken;
      once it left the queue it is within half the cache, and a downloaded block
      is at its slot. */
  ghost predicate InTurn(s: Sched, plan: Plan, offset: nat, i: nat)
    requires plan.taken <= i < |plan.sched|
  {
    var h := plan.sched[i];
    && h in plan.where && h in plan.prio && plan.prio[h] == -(i + 1)
    && (plan.where[h] != Queued ==> i - plan.taken < |s.cache| / 2)
    && (plan.where[h] == Downloaded ==>
          && h in s.blocks && s.blocks[h] == offset + i - plan.taken
          && i - plan.taken < |s.cache| && s.cache[i - plan.taken].Some? && s.cache[i - plan.taken].value.hash == h)
  }

  /** Scheduled first in first out, naming consecutive heights from `offset` at
      the first hash not yet taken. */
  ghost predicate Ordered(s: Sched, plan: Plan, offset: nat) {
    && Distinct(plan.sched) && plan.taken <= |plan.sched| == s.counter
    && (forall h :: h in plan.where ==> Scheduled(plan, h) && plan.where[h] != Lost)
    && (forall i :: plan.taken <= i < |plan.sched| ==> InTurn(s, plan, offset, i))
  }

  // ---- The window ----

  /** A stretch of distinct hashes inside a set is no longer than the set. */
  lemma {:induction false} StretchFits(hashes: seq<Hash>, from: nat, to: nat, others: set<Hash>)
    requires Distinct(hashes) && from <= to <= |hashes|
    requires forall i :: from <= i < to ==> hashes[i] in others
    ensures to - from <= |others|
  {
    if from < to {
      assert forall i :: from <= i < to - 1 ==> hashes[i] != hashes[to - 1];
      StretchFits(hashes, from, to - 1, others - {hashes[to - 1]});
    }
  }

  /** The hash with the highest priority in the queue is within half the cache of
      the offset as long as less than half is busy: everything scheduled before
      it has left the queue and was not taken, so it is busy. */
  lemma {:induction false} NextIsInWindow(s: Sched, loose: map<Hash, int>, plan: Plan, offset: nat, i: nat)
    requires Inv(s, loose, plan) && Ordered(s, plan, offset) && |Busy(plan.where)| < |s.cache| / 2
    requires plan.taken <= i < |plan.sched| && plan.sched[i] in s.queue
    requires forall h :: h in s.queue ==> s.queue[h] <= s.queue[plan.sched[i]]
    ensures i - plan.taken < |s.cache| / 2
  {
    assert InTurn(s, plan, offset, i);
    forall j | plan.taken <= j < i ensures plan.sched[j] in Busy(plan.where) {
      assert InTurn(s, plan, offset, j) && Spot(s, loose, plan.where, plan.sched[j]);
    }
    StretchFits(plan.sched, plan.taken, i, Busy(plan.where));
  }

  // ---- The moves every operation is made of ----

  function Move(where: Where, from: Place, to: Place): Where {
    map h | h in where :: if where[h] == from then to else where[h]
  }

  lemma {:induction false} BusyMoves(where: Where, from: Place, to: Place)
    ensures to == Queued || to == Lost ==> |Busy(Move(where, from, to))| <= |Busy(where)|
    ensures from != Queued && from != Lost && to != Queued && to != Lost ==> Busy(Move(where, from, to)) == Busy(where)
  {
    if to == Queued || to == Lost { SubsetSize(Busy(Move(where, from, to)), Busy(where)); }
  }

  /** Order survives any move that makes nothing new busy, downloaded or lost. */
  lemma {:induction false} OrderSurvives(s: Sched, s': Sched, plan: Plan, plan': Plan, offset: nat)
    requires Ordered(s, plan, offset)
    requires s'.counter == s.counter && s'.blocks == s.blocks && s'.cache == s.cache
    requires plan' == plan.(where := plan'.where)
    requires forall h :: h in plan.where <==> h in plan'.where
    requires forall h :: h in plan.where && plan.where[h] == Queued ==> plan'.where[h] == Queued
    requires forall h :: h in plan.where && plan'.where[h] in {Downloaded, Lost} ==> plan'.where[h] == plan.where[h]
    ensures Ordered(s', plan', offset)
  {
    forall h | h in plan'.where ensures Scheduled(plan', h) && plan'.where[h] != Lost { assert Scheduled(plan, h); }
    forall i | plan'.taken <= i < |plan'.sched| ensures InTurn(s', plan', offset, i) {
      assert InTurn(s, plan, offset, i);
    }
  }

  /** A request leaves the pending pool: its hashes come in hand. */
  function Unpend(s: Sched, p: Peer): Sched {
    s.(pending := s.pending - {p})
  }

  function Unpended(plan: Plan, p: Peer): Plan {
    plan.(where := Move(plan.where, InFlight(p), InHand))
  }

  lemma {:induction false} UnpendPlaces(s: Sched, p: Peer, plan: Plan)
    requires Inv(s, map[], plan) && p in s.pending
    ensures Inv(Unpend(s, p), s.pending[p].hashes, Unpended(plan, p))
  {
    hide Balanced, Spot, Slotted;
    var s', loose', plan' := Unpend(s, p), s.pending[p].hashes, Unpended(plan, p);
    Rebalanced(plan, plan');
    BusyMoves(plan.where, InFlight(p), InHand);
    forall h ensures Spot(s', loose', plan'.where, h) { UnpendSpot(s, p, plan, h); }
  }

  lemma {:induction false} UnpendSpot(s: Sched, p: Peer, plan: Plan, h: Hash)
    requires Spot(s, map[], plan.where, h) && p in s.pending
    ensures Spot(Unpend(s, p), s.pending[p].hashes, Unpended(plan, p).where, h)
  {
  }

  lemma {:induction false} UnpendInOrder(s: Sched, p: Peer, plan: Plan, o: nat)
    requires Inv(s, map[], plan) && p in s.pending && Ordered(s, plan, o)
    ensures Ordered(Unpend(s, p), Unpended(plan, p), o)
  {
    hide Priorities, Busy, Slotted, Balanced, Ordered;
    var s', plan' := Unpend(s, p), Unpended(plan, p);
    OrderSurvives(s, s', plan, plan', o);
  }

  lemma {:induction false} UnpendKeeps(s: Sched, p: Peer, plan: Plan)
    requires Inv(s, map[], plan) && p in s.pending
    ensures Inv(Unpend(s, p), s.pending[p].hashes, Unpended(plan, p))
    ensures forall o :: Ordered(s, plan, o) ==> Ordered(Unpend(s, p), Unpended(plan, p), o)
  {
    hide Inv, Ordered;
    UnpendPlaces(s, p, plan);
    forall o | Ordered(s, plan, o) ensures Ordered(Unpend(s, p), Unpended(plan, p), o) { UnpendInOrder(s, p, plan, o); }
  }

  /** Hashes in hand go back to the queue with the priority they had. */
  function Requeue(s: Sched, loose: map<Hash, int>): Sched {
    s.(queue := s.queue + loose)
  }

  function Requeued(plan: Plan): Plan {
    plan.(where := Move(plan.where, InHand, Queued))
  }

  lemma {:induction false} RequeueSpot(s: Sched, loose: map<Hash, int>, plan: Plan, h: Hash)
    requires Spot(s, loose, plan.where, h)
    ensures Spot(Requeue(s, loose), map[], Requeued(plan).where, h)
  {
  }

  lemma {:induction false} RequeuePlaces(s: Sched, loose: map<Hash, int>, plan: Plan)
    requires Inv(s, loose, plan)
    ensures Inv(Requeue(s, loose), map[], Requeued(plan))
  {
    hide Balanced;
    hide Spot;
    var s', plan' := Requeue(s, loose), Requeued(plan);
    Rebalanced(plan, plan');
    BusyMoves(plan.where, InHand, Queued);
    forall h ensures Spot(s', map[], plan'.where, h) { RequeueSpot(s, loose, plan, h); }
  }

  lemma {:induction false} RequeueInOrder(s: Sched, loose: map<Hash, int>, plan: Plan, o: nat)
    requires Inv(s, loose, plan) && Ordered(s, plan, o)
    ensures Ordered(Requeue(s, loose), Requeued(plan), o)
  {
    hide Priorities, Busy, Slotted, Balanced, Ordered;
    var s', plan' := Requeue(s, loose), Requeued(plan);
    OrderSurvives(s, s', plan, plan', o);
  }

  lemma {:induction false} RequeueKeeps(s: Sched, loose: map<Hash, int>, plan: Plan)
    requires Inv(s, loose, plan)
    ensures Inv(Requeue(s, loose), map[], Requeued(plan))
    ensures forall o :: Ordered(s, plan, o) ==> Ordered(Requeue(s, loose), Requeued(plan), o)
  {
    hide Inv, Ordered;
    RequeuePlaces(s, loose, plan);
    forall o | Ordered(s, plan, o) ensures Ordered(Requeue(s, loose), Requeued(plan), o) {
      RequeueInOrder(s, loose, plan, o);
    }
  }

  /** The hash of highest priority leaves the queue. */
  function PopOff(s: Sched, h: Hash): Sched {
    s.(queue := s.queue - {h})
  }

  function Popped(plan: Plan, h: Hash): Plan {
    plan.(where := plan.where[h := InHand])
  }

  lemma {:induction false} PopSpot(s: Sched, loose: map<Hash, int>, h: Hash, plan: Plan, x: Hash)
    requires Spot(s, loose, plan.where, x) && IsAt(plan.where, h, Queued) && h in s.queue
    ensures Spot(PopOff(s, h), loose[h := s.queue[h]], Popped(plan, h).where, x)
  {
  }

  lemma QueuedIs(s: Sched, loose: map<Hash, int>, where: Where, h: Hash)
    requires Spot(s, loose, where, h) && h in s.queue
    ensures IsAt(where, h, Queued)
  {
  }

  lemma {:induction false} PopKeeps(s: Sched, loose: map<Hash, int>, h: Hash, plan: Plan)
    requires Inv(s, loose, plan) && h in s.queue && |Busy(plan.where)| < |s.cache| / 2
    ensures Inv(PopOff(s, h), loose[h := s.queue[h]], Popped(plan, h))
    ensures |Busy(Popped(plan, h).where)| == |Busy(plan.where)| + 1
  {
    hide Balanced, Spot, Slotted;
    var s', loose', plan' := PopOff(s, h), loose[h := s.queue[h]], Popped(plan, h);
    QueuedIs(s, loose, plan.where, h);
    Rebalanced(plan, plan');
    assert Busy(plan'.where) == Busy(plan.where) + {h};
    forall x ensures Spot(s', loose', plan'.where, x) { PopSpot(s, loose, h, plan, x); }
  }

  lemma {:induction false} PopInOrder(s: Sched, loose: map<Hash, int>, h: Hash, plan: Plan, offset: nat)
    requires Inv(s, loose, plan) && h in s.queue && |Busy(plan.where)| < |s.cache| / 2 && Ordered(s, plan, offset)
    requires forall x :: x in s.queue ==> s.queue[x] <= s.queue[h]
    ensures Ordered(PopOff(s, h), Popped(plan, h), offset)
  {
    hide Priorities, Slotted, Balanced, Busy, InTurn;
    var s', plan' := PopOff(s, h), Popped(plan, h);
    assert Spot(s, loose, plan.where, h) && Scheduled(plan, h);
    var i :| plan.taken <= i < |plan.sched| && plan.sched[i] == h;
    NextIsInWindow(s, loose, plan, offset, i);
    forall x | x in plan'.where ensures Scheduled(plan', x) && plan'.where[x] != Lost { assert Scheduled(plan, x); }
    forall j | plan'.taken <= j < |plan'.sched| ensures InTurn(s', plan', offset, j) {
      PopTurn(s, h, plan, offset, i, j);
    }
  }

  lemma {:induction false} PopTurn(s: Sched, h: Hash, plan: Plan, offset: nat, i: nat, j: nat)
    requires plan.taken <= i < |plan.sched| && plan.taken <= j < |plan.sched| && Distinct(plan.sched)
    requires plan.sched[i] == h && i - plan.taken < |s.cache| / 2 && InTurn(s, plan, offset, j)
    ensures InTurn(PopOff(s, h), Popped(plan, h), offset, j)
  {
  }

  /** All hashes in hand become a peer's request. */
  function Assign(s: Sched, p: Peer, r: Request): Sched {
    s.(pending := s.pending[p := r])
  }

  function Assigned(plan: Plan, p: Peer): Plan {
    plan.(where := Move(plan.where, InHand, InFlight(p)))
  }

  lemma {:induction false} AssignSpot(s: Sched, send: map<Hash, int>, p: Peer, time: int, plan: Plan, h: Hash)
    requires Spot(s, send, plan.where, h) && p !in s.pending
    ensures Spot(Assign(s, p, Request(send, time)), map[], Assigned(plan, p).where, h)
  {
  }

  lemma {:induction false} AssignPlaces(s: Sched, send: map<Hash, int>, p: Peer, time: int, plan: Plan)
    requires Inv(s, send, plan) && p !in s.pending
    ensures Inv(Assign(s, p, Request(send, time)), map[], Assigned(plan, p))
  {
    hide Balanced;
    hide Spot;
    var s', plan' := Assign(s, p, Request(send, time)), Assigned(plan, p);
    Rebalanced(plan, plan');
    BusyMoves(plan.where, InHand, InFlight(p));
    forall h ensures Spot(s', map[], plan'.where, h) { AssignSpot(s, send, p, time, plan, h); }
  }

  lemma {:induction false} AssignInOrder(s: Sched, send: map<Hash, int>, p: Peer, time: int, plan: Plan, o: nat)
    requires Inv(s, send, plan) && p !in s.pending && Ordered(s, plan, o)
    ensures Ordered(Assign(s, p, Request(send, time)), Assigned(plan, p), o)
  {
    hide Priorities, Busy, Slotted, Balanced, Ordered;
    var s', plan' := Assign(s, p, Request(send, time)), Assigned(plan, p);
    OrderSurvives(s, s', plan, plan', o);
  }

  lemma {:induction false} AssignKeeps(s: Sched, send: map<Hash, int>, p: Peer, time: int, plan: Plan)
    requires Inv(s, send, plan) && p !in s.pending
    ensures Inv(Assign(s, p, Request(send, time)), map[], Assigned(plan, p))
    ensures forall o :: Ordered(s, plan, o) ==> Ordered(Assign(s, p, Request(send, time)), Assigned(plan, p), o)
  {
    hide Inv, Ordered;
    AssignPlaces(s, send, p, time, plan);
    forall o | Ordered(s, plan, o) ensures Ordered(Assign(s, p, Request(send, time)), Assigned(plan, p), o) {
      AssignInOrder(s, send, p, time, plan, o);
    }
  }

  /** Some hashes in hand are put back, the rest stay in hand. */
  function PutBack(plan: Plan, skip: map<Hash, int>): Plan {
    plan.(where := map h | h in plan.where :: if h in skip then Queued else plan.where[h])
  }

  /** Each hash in hand is either to be sent or to be put back, with its priority. */
  ghost predicate Sorted(loose: map<Hash, int>, send: map<Hash, int>, skip: map<Hash, int>, h: Hash) {
    && (h in loose <==> h in send || h in skip)
    && (h in send ==> h !in skip && send[h] == loose[h])
    && (h in skip ==> skip[h] == loose[h])
  }

  ghost predicate AllSorted(loose: map<Hash, int>, send: map<Hash, int>, skip: map<Hash, int>) {
    forall h :: Sorted(loose, send, skip, h)
  }

  lemma {:induction false} PutBackPlaces(s: Sched, loose: map<Hash, int>, send: map<Hash, int>, skip: map<Hash, int>,
          plan: Plan, h: Hash)
    requires Spot(s, loose, plan.where, h) && Sorted(loose, send, skip, h)
    ensures Spot(Requeue(s, skip), send, PutBack(plan, skip).where, h)
    ensures h in loose && Keeps(plan.prio, loose) ==>
        && (h in send ==> h in plan.prio && send[h] == plan.prio[h])
        && (h in skip ==> h in plan.prio && skip[h] == plan.prio[h])
  {
  }

  lemma {:induction false} PutBackInv(s: Sched, loose: map<Hash, int>, send: map<Hash, int>, skip: map<Hash, int>,
          plan: Plan)
    requires Inv(s, loose, plan) && AllSorted(loose, send, skip)
    ensures Inv(Requeue(s, skip), send, PutBack(plan, skip))
  {
    hide Balanced, Spot, Slotted;
    var s', plan' := Requeue(s, skip), PutBack(plan, skip);
    Rebalanced(plan, plan');
    SubsetSize(Busy(plan'.where), Busy(plan.where));
    forall h ensures Spot(s', send, plan'.where, h)
             ensures (h in send ==> h in plan.prio && send[h] == plan.prio[h])
             ensures (h in skip ==> h in plan.prio && skip[h] == plan.prio[h])
    {
      assert Sorted(loose, send, skip, h);
      PutBackPlaces(s, loose, send, skip, plan, h);
    }
  }

  lemma {:induction false} PutBackInOrder(s: Sched, loose: map<Hash, int>, send: map<Hash, int>, skip: map<Hash, int>,
          plan: Plan, o: nat)
    requires Inv(s, loose, plan) && AllSorted(loose, send, skip) && Ordered(s, plan, o)
    ensures Ordered(Requeue(s, skip), PutBack(plan, skip), o)
  {
    hide Priorities, Busy, Slotted, Balanced, Ordered;
    var s', plan' := Requeue(s, skip), PutBack(plan, skip);
    OrderSurvives(s, s', plan, plan', o);
  }

  lemma {:induction false} PutBackKeeps(s: Sched, loose: map<Hash, int>, send: map<Hash, int>, skip: map<Hash, int>,
          plan: Plan)
    requires Inv(s, loose, plan) && AllSorted(loose, send, skip)
    ensures Inv(Requeue(s, skip), send, PutBack(plan, skip))
    ensures forall o :: Ordered(s, plan, o) ==> Ordered(Requeue(s, skip), PutBack(plan, skip), o)
  {
    hide Inv, Ordered;
    PutBackInv(s, loose, send, skip, plan);
    forall o | Ordered(s, plan, o) ensures Ordered(Requeue(s, skip), PutBack(plan, skip), o) {
      PutBackInOrder(s, loose, send, skip, plan, o);
    }
  }

  /** A requested block is merged at its slot and its hash is done with. */
  function Accept(s: Sched, b: Block): Sched
    requires s.offset <= b.height < s.offset + |s.cache|
  {
    s.(cache := s.cache[b.height - s.offset := Some(b)], pool := s.pool - {b.hash},
        blocks := s.blocks[b.hash := b.height])
  }

  function Accepted(plan: Plan, b: Block): Plan {
    plan.(where := plan.where[b.hash := Downloaded])
  }

  lemma {:induction false} AcceptKeeps(s: Sched, loose: map<Hash, int>, b: Block, plan: Plan)
    requires Inv(s, loose, plan) && b.hash in loose
    requires s.offset <= b.height < s.offset + |s.cache|
    ensures Inv(Accept(s, b), loose - {b.hash}, Accepted(plan, b))
  {
    hide Balanced, Spot, Slotted;
    var s', loose', plan' := Accept(s, b), loose - {b.hash}, Accepted(plan, b);
    InHandIs(s, loose, plan.where, b.hash);
    Rebalanced(plan, plan');
    assert Busy(plan'.where) == Busy(plan.where);
    forall x ensures Spot(s', loose', plan'.where, x) { AcceptSpot(s, loose, b, plan, x); }
    AcceptSlotted(s, b);
  }

  lemma InHandIs(s: Sched, loose: map<Hash, int>, where: Where, h: Hash)
    requires Spot(s, loose, where, h) && h in loose
    ensures IsAt(where, h, InHand) && h !in s.blocks
  {
  }

  lemma {:induction false} AcceptSpot(s: Sched, loose: map<Hash, int>, b: Block, plan: Plan, x: Hash)
    requires Spot(s, loose, plan.where, x) && IsAt(plan.where, b.hash, InHand)
    requires s.offset <= b.height < s.offset + |s.cache|
    ensures Spot(Accept(s, b), loose - {b.hash}, Accepted(plan, b).where, x)
  {
  }

  lemma {:induction false} AcceptSlotted(s: Sched, b: Block)
    requires Slotted(s.cache, s.blocks, s.offset) && b.hash !in s.blocks
    requires s.offset <= b.height < s.offset + |s.cache|
    ensures var s' := Accept(s, b); Slotted(s'.cache, s'.blocks, s'.offset)
  {
  }

  /** The block's height is the one its hash was scheduled for. */
  ghost predicate Honest(b: Block, plan: Plan, offset: nat) {
    forall i :: plan.taken <= i < |plan.sched| && plan.sched[i] == b.hash ==> b.height == offset + i - plan.taken
  }

  /** A requested honest block is within half the cache, hence never out of range. */
  lemma {:induction false} HonestInWindow(s: Sched, b: Block, plan: Plan)
    requires Ordered(s, plan, s.offset) && IsAt(plan.where, b.hash, InHand) && Honest(b, plan, s.offset)
    ensures s.offset <= b.height < s.offset + |s.cache| / 2
  {
    assert Scheduled(plan, b.hash);
    var i :| plan.taken <= i < |plan.sched| && plan.sched[i] == b.hash;
    assert InTurn(s, plan, s.offset, i);
  }

  lemma {:induction false} AcceptInOrder(s: Sched, b: Block, plan: Plan)
    requires Ordered(s, plan, s.offset) && IsAt(plan.where, b.hash, InHand) && Honest(b, plan, s.offset)
    requires s.offset <= b.height < s.offset + |s.cache| / 2
    ensures Ordered(Accept(s, b), Accepted(plan, b), s.offset)
  {
    var s', plan' := Accept(s, b), Accepted(plan, b);
    assert plan'.where.Keys == plan.where.Keys;
    forall x | x in plan'.where ensures Scheduled(plan', x) && plan'.where[x] != Lost { assert Scheduled(plan, x); }
    forall j | plan'.taken <= j < |plan'.sched| ensures InTurn(s', plan', s.offset, j) { AcceptTurn(s, b, plan, j); }
  }

  lemma {:induction false} AcceptTurn(s: Sched, b: Block, plan: Plan, j: nat)
    requires Ordered(s, plan, s.offset) && IsAt(plan.where, b.hash, InHand) && Honest(b, plan, s.offset)
    requires s.offset <= b.height < s.offset + |s.cache| / 2 && plan.taken <= j < |plan.sched|
    ensures InTurn(Accept(s, b), Accepted(plan, b), s.offset, j)
  {
    assert InTurn(s, plan, s.offset, j);
    assert plan.sched[j] == b.hash ==> b.height == s.offset + j - plan.taken;
  }

  /** The first n cached blocks leave; the window slides by n. */
  function Take(s: Sched, n: nat): Sched
    requires n <= |s.cache| && forall i :: 0 <= i < n ==> s.cache[i].Some?
  {
    s.(cache := s.cache[n..] + Nones(n), blocks := s.blocks - TakenHashes(s.cache, n), offset := s.offset + n)
  }

  function Nones(n: nat): (c: seq<Option<Block>>)
    ensures |c| == n && forall i :: 0 <= i < n ==> c[i] == None
  {
    seq(n, i => None)
  }

  function TakenHashes(cache: seq<Option<Block>>, n: nat): (hashes: set<Hash>)
    requires n <= |cache| && forall i :: 0 <= i < n ==> cache[i].Some?
    ensures forall h :: h in hashes <==> exists i :: 0 <= i < n && cache[i].value.hash == h
  {
    set i | 0 <= i < n :: cache[i].value.hash
  }

  function TakenPlan(s: Sched, plan: Plan, n: nat): Plan
    requires n <= |s.cache| && forall i :: 0 <= i < n ==> s.cache[i].Some?
  {
    plan.(where := plan.where - TakenHashes(s.cache, n), taken := plan.taken + n,
        out := plan.out + TakenList(s.cache, n))
  }

  function TakenList(cache: seq<Option<Block>>, n: nat): (hashes: seq<Hash>)
    requires n <= |cache| && forall i :: 0 <= i < n ==> cache[i].Some?
    ensures |hashes| == n
  {
    seq(n, i requires 0 <= i < n => cache[i].value.hash)
  }

  /** Cached blocks have different hashes. */
  lemma {:induction false} TakenOnce(s: Sched, n: nat)
    requires Slotted(s.cache, s.blocks, s.offset) && n <= |s.cache| && forall i :: 0 <= i < n ==> s.cache[i].Some?
    ensures multiset(TakenHashes(s.cache, n)) == multiset(TakenList(s.cache, n))
  {
    if n > 0 {
      TakenOnce(s, n - 1);
      TakenHashesStep(s.cache, n - 1);
      var h := s.cache[n - 1].value.hash;
      assert h !in TakenHashes(s.cache, n - 1);
      assert TakenList(s.cache, n) == TakenList(s.cache, n - 1) + [h];
    }
  }

  lemma SetSplits<T>(whole: set<T>, part: set<T>)
    requires part <= whole
    ensures multiset(whole) == multiset(whole - part) + multiset(part)
  {
  }

  lemma {:induction false} TakenWasHeld(s: Sched, plan: Plan, n: nat)
    requires Inv(s, map[], plan) && n <= |s.cache| && forall i :: 0 <= i < n ==> s.cache[i].Some?
    ensures TakenHashes(s.cache, n) <= plan.where.Keys && Balanced(plan) && Slotted(s.cache, s.blocks, s.offset)
  {
    hide Balanced;
    forall h | h in TakenHashes(s.cache, n) ensures h in plan.where { assert Spot(s, map[], plan.where, h); }
  }

  lemma {:induction false} TakeBalances(s: Sched, plan: Plan, n: nat)
    requires Inv(s, map[], plan) && n <= |s.cache| && forall i :: 0 <= i < n ==> s.cache[i].Some?
    ensures Balanced(TakenPlan(s, plan, n))
  {
    hide Inv, TakenHashes, TakenList;
    var taken, keys := TakenHashes(s.cache, n), plan.where.Keys;
    TakenWasHeld(s, plan, n);
    TakenOnce(s, n);
    hide Slotted;
    assert TakenPlan(s, plan, n).where.Keys == keys - taken;
    SetSplits(keys, taken);
  }

  lemma {:induction false} TakeKeeps(s: Sched, plan: Plan, n: nat)
    requires Inv(s, map[], plan) && n <= |s.cache| && forall i :: 0 <= i < n ==> s.cache[i].Some?
    ensures Inv(Take(s, n), map[], TakenPlan(s, plan, n))
  {
    hide Balanced, TakenList;
    var s', plan' := Take(s, n), TakenPlan(s, plan, n);
    TakeBalances(s, plan, n);
    SubsetSize(Busy(plan'.where), Busy(plan.where));
    forall h ensures Spot(s', map[], plan'.where, h) {
      assert Spot(s, map[], plan.where, h);
    }
    forall i | 0 <= i < |s'.cache| && s'.cache[i].Some?
      ensures && s'.cache[i].value.height == s'.offset + i
              && s'.cache[i].value.hash in s'.blocks && s'.blocks[s'.cache[i].value.hash] == s'.offset + i
    {
      assert s'.cache[i] == s.cache[i + n];
    }
  }

  /** The cached head blocks are the next hashes in schedule order. */
  lemma {:induction false} HeadIsNext(s: Sched, plan: Plan, i: nat)
    requires Inv(s, map[], plan) && Ordered(s, plan, s.offset) && i < |s.cache| && s.cache[i].Some?
    ensures plan.taken + i < |plan.sched| && plan.sched[plan.taken + i] == s.cache[i].value.hash
  {
    var h := s.cache[i].value.hash;
    assert Spot(s, map[], plan.where, h) && Scheduled(plan, h);
    var j :| plan.taken <= j < |plan.sched| && plan.sched[j] == h;
    assert InTurn(s, plan, s.offset, j);
  }

  lemma {:induction false} HeadHashes(s: Sched, plan: Plan, n: nat)
    requires Inv(s, map[], plan) && Ordered(s, plan, s.offset)
    requires n <= |s.cache| && forall i :: 0 <= i < n ==> s.cache[i].Some?
    ensures plan.taken + n <= |plan.sched|
    ensures forall j :: plan.taken <= j < |plan.sched| ==>
        (plan.sched[j] in TakenHashes(s.cache, n) <==> j < plan.taken + n)
  {
    hide Inv;
    if n > 0 { HeadIsNext(s, plan, n - 1); }
    forall j | plan.taken <= j < |plan.sched| ensures plan.sched[j] in TakenHashes(s.cache, n) <==> j < plan.taken + n {
      if j < plan.taken + n {
        HeadIsNext(s, plan, j - plan.taken);
      } else if plan.sched[j] in TakenHashes(s.cache, n) {
        var i :| 0 <= i < n && s.cache[i].value.hash == plan.sched[j];
        HeadIsNext(s, plan, i);
      }
    }
  }

  lemma {:induction false} TakeInOrder(s: Sched, plan: Plan, n: nat)
    requires Inv(s, map[], plan) && Ordered(s, plan, s.offset)
    requires n <= |s.cache| && forall i :: 0 <= i < n ==> s.cache[i].Some?
    ensures Ordered(Take(s, n), TakenPlan(s, plan, n), s.offset + n)
  {
    var s', plan' := Take(s, n), TakenPlan(s, plan, n);
    HeadHashes(s, plan, n);
    hide Inv, TakenHashes;
    forall h | h in plan'.where ensures Scheduled(plan', h) && plan'.where[h] != Lost {
      assert Scheduled(plan, h);
      var j :| plan.taken <= j < |plan.sched| && plan.sched[j] == h;
    }
    forall j | plan'.taken <= j < |plan'.sched| ensures InTurn(s', plan', s'.offset, j) {
      assert InTurn(s, plan, s.offset, j);
    }
  }

  /** First in first out: the lowest counter has the highest priority. */
  function Priority(fifo: bool, counter: nat): int {
    if fifo then 0 - counter else counter
  }

  /** A new hash joins the queue. */
  function Schedule(s: Sched, h: Hash, priority: int): Sched {
    s.(counter := s.counter + 1, pool := s.pool[h := s.counter + 1], queue := s.queue[h := priority])
  }

  function ScheduledPlan(plan: Plan, h: Hash, priority: int): Plan {
    plan.(where := plan.where[h := Queued], prio := plan.prio[h := priority], sched := plan.sched + [h])
  }

  lemma {:induction false} ScheduleBalances(plan: Plan, h: Hash, priority: int)
    requires Balanced(plan) && h !in plan.where
    ensures Balanced(ScheduledPlan(plan, h, priority))
  {
    assert ScheduledPlan(plan, h, priority).where.Keys == plan.where.Keys + {h};
  }

  lemma {:induction false} ScheduleKeeps(s: Sched, plan: Plan, h: Hash, priority: int)
    requires Inv(s, map[], plan) && h !in s.pool && h !in s.blocks
    ensures Inv(Schedule(s, h, priority), map[], ScheduledPlan(plan, h, priority))
  {
    hide Balanced, Spot, Priorities, Slotted;
    var s', plan' := Schedule(s, h, priority), ScheduledPlan(plan, h, priority);
    NotPlaced(s, plan, h);
    ScheduleBalances(plan, h, priority);
    assert Busy(plan'.where) == Busy(plan.where);
    forall x ensures Spot(s', map[], plan'.where, x) { ScheduleSpot(s, plan, h, priority, x); }
    SchedulePriorities(s, plan, h, priority);
  }

  lemma {:induction false} ScheduleSpot(s: Sched, plan: Plan, h: Hash, priority: int, x: Hash)
    requires Spot(s, map[], plan.where, x) && Spot(s, map[], plan.where, h) && h !in s.pool && h !in s.blocks
    ensures Spot(Schedule(s, h, priority), map[], ScheduledPlan(plan, h, priority).where, x)
  {
  }

  lemma {:induction false} SchedulePriorities(s: Sched, plan: Plan, h: Hash, priority: int)
    requires Inv(s, map[], plan) && h !in s.pool && h !in s.blocks
    ensures Priorities(Schedule(s, h, priority), map[], ScheduledPlan(plan, h, priority).prio)
  {
    hide Balanced, Slotted, Busy;
    assert Spot(s, map[], plan.where, h);
    forall p | p in s.pending ensures Keeps(plan.prio[h := priority], s.pending[p].hashes) {
      assert h !in s.pending[p].hashes;
    }
  }

  lemma {:induction false} ScheduleInOrder(s: Sched, plan: Plan, h: Hash, offset: nat)
    requires Ordered(s, plan, offset) && h !in plan.sched && h !in plan.where
    ensures Ordered(Schedule(s, h, -(s.counter + 1)), ScheduledPlan(plan, h, -(s.counter + 1)), offset)
  {
    var s', plan' := Schedule(s, h, -(s.counter + 1)), ScheduledPlan(plan, h, -(s.counter + 1));
    forall x | x in plan'.where ensures Scheduled(plan', x) && plan'.where[x] != Lost {
      if x == h {
        assert plan'.sched[|plan.sched|] == x;
      } else {
        assert Scheduled(plan, x);
        var i :| plan.taken <= i < |plan.sched| && plan.sched[i] == x;
        assert plan'.sched[i] == x;
      }
    }
    forall j | plan'.taken <= j < |plan'.sched| ensures InTurn(s', plan', offset, j) {
      if j < |plan.sched| { assert InTurn(s, plan, offset, j) && plan.sched[j] != h; }
    }
  }

  // ---- Counting requests ----

  ghost function FlightOf(where: Where, peers: set<Peer>): set<Hash> {
    set h | h in where && where[h].InFlight? && where[h].peer in peers
  }

  lemma {:induction false} SplitSize<T(!new)>(whole: set<T>, a: set<T>, b: set<T>)
    requires forall x :: (x in whole <==> x in a || x in b) && !(x in a && x in b)
    ensures |whole| == |a| + |b|
  {
    assert whole == a + b && a !! b;
  }

  lemma {:induction false} CountStep(s: Sched, plan: Plan, peers: set<Peer>, p: Peer)
    requires Inv(s, map[], plan) && p in s.pending && p !in peers
    ensures |FlightOf(plan.where, peers + {p})| == |FlightOf(plan.where, peers)| + |s.pending[p].hashes|
  {
    var whole, a, b := FlightOf(plan.where, peers + {p}), FlightOf(plan.where, peers), s.pending[p].hashes.Keys;
    forall h ensures (h in whole <==> h in a || h in b) && !(h in a && h in b) {
      assert Spot(s, map[], plan.where, h);
    }
    SplitSize(whole, a, b);
  }

  lemma {:induction false} BusySplit(s: Sched, plan: Plan)
    requires Inv(s, map[], plan)
    ensures |Busy(plan.where)| == |FlightOf(plan.where, s.pending.Keys)| + |s.blocks|
  {
    var whole, a, b := Busy(plan.where), FlightOf(plan.where, s.pending.Keys), s.blocks.Keys;
    forall h ensures (h in whole <==> h in a || h in b) && !(h in a && h in b) {
      assert Spot(s, map[], plan.where, h);
    }
    SplitSize(whole, a, b);
  }

  lemma {:induction false} RequestedInRange(s: Sched, loose: map<Hash, int>, b: Block, plan: Plan)
    requires Inv(s, loose, plan) && Ordered(s, plan, s.offset) && b.hash in loose && Honest(b, plan, s.offset)
    ensures s.offset <= b.height < s.offset + |s.cache| / 2
  {
    assert Spot(s, loose, plan.where, b.hash);
    HonestInWindow(s, b, plan);
  }

  lemma {:induction false} AcceptedInOrder(s: Sched, loose: map<Hash, int>, b: Block, plan: Plan)
    requires Inv(s, loose, plan) && b.hash in loose && s.offset <= b.height < s.offset + |s.cache|
    ensures Ordered(s, plan, s.offset) && Honest(b, plan, s.offset) ==>
        Ordered(Accept(s, b), Accepted(plan, b), s.offset)
  {
    hide Ordered, Honest;
    assert Spot(s, loose, plan.where, b.hash);
    if Ordered(s, plan, s.offset) && Honest(b, plan, s.offset) {
      HonestInWindow(s, b, plan);
      AcceptInOrder(s, b, plan);
    }
  }

  lemma {:induction false} TakenHashesStep(cache: seq<Option<Block>>, n: nat)
    requires n < |cache| && forall i :: 0 <= i <= n ==> cache[i].Some?
    ensures TakenHashes(cache, n + 1) == TakenHashes(cache, n) + {cache[n].value.hash}
  {
  }

  lemma {:induction false} TakeAll(s: Sched, plan: Plan, blocks: seq<Block>)
    requires Inv(s, map[], plan) && |blocks| <= |s.cache|
    requires forall i :: 0 <= i < |blocks| ==> s.cache[i] == Some(blocks[i])
    ensures Inv(Take(s, |blocks|), map[], TakenPlan(s, plan, |blocks|))
    ensures forall i :: 0 <= i < |blocks| ==> blocks[i].height == s.offset + i
    ensures Ordered(s, plan, s.offset) ==>
              && Ordered(Take(s, |blocks|), TakenPlan(s, plan, |blocks|), s.offset + |blocks|)
              && plan.taken + |blocks| <= |plan.sched|
              && forall i :: 0 <= i < |blocks| ==> blocks[i].hash == plan.sched[plan.taken + i]
  {
    hide Ordered;
    var n := |blocks|;
    assert forall i :: 0 <= i < n ==> s.cache[i].Some?;
    TakeKeeps(s, plan, n);
    if Ordered(s, plan, s.offset) {
      TakeInOrder(s, plan, n);
      HeadHashes(s, plan, n);
      forall i | 0 <= i < n ensures blocks[i].hash == plan.sched[plan.taken + i] { HeadIsNext(s, plan, i); }
    }
  }

  lemma {:induction false} NotPlaced(s: Sched, plan: Plan, h: Hash)
    requires Inv(s, map[], plan) && h !in s.pool && h !in s.blocks
    ensures h !in plan.where
  {
    assert Spot(s, map[], plan.where, h);
  }

  lemma {:induction false} HasHighest(queue: map<Hash, int>)
    requires queue != map[]
    ensures exists h :: h in queue && forall x :: x in queue ==> queue[x] <= queue[h]
    decreases |queue.Keys|
  {
    var h :| h in queue;
    var rest := queue - {h};
    if rest == map[] {
      assert queue.Keys == {h} + rest.Keys;
    } else {
      assert |rest.Keys| < |queue.Keys| by { assert rest.Keys == queue.Keys - {h}; }
      HasHighest(rest);
      var g :| g in rest && forall x :: x in rest ==> rest[x] <= rest[g];
      var best := if queue[h] <= queue[g] then g else h;
      forall x | x in queue ensures queue[x] <= queue[best] {
        if x != h { assert x in rest; }
      }
    }
  }

  // ---- The queue ----

  const BLOCK_CACHE_LIMIT := 32 * 128

  lemma PrioritiesMove(s: Sched, s': Sched, plan: Plan)
    requires Priorities(s, map[], plan.prio) && s' == s.(offset := s'.offset)
    ensures Priorities(s', map[], plan.prio)
  {
  }

  // ---- No hash lost, none doubled ----

  /** Only places changed, and exactly these hashes were lost: what was scheduled, taken
      and with which priority stayed. */
  ghost predicate Drops(plan: Plan, plan': Plan, lost: set<Hash>) {
    && plan' == plan.(where := plan'.where) && plan'.where.Keys == plan.where.Keys
    && LostOf(plan'.where) == LostOf(plan.where) + lost
  }

  ghost predicate Steady(plan: Plan, plan': Plan) { Drops(plan, plan', {}) }

  lemma MoveIsSteady(plan: Plan, from: Place, to: Place)
    requires from != Lost && to != Lost
    ensures Steady(plan, plan.(where := Move(plan.where, from, to)))
  {
    assert LostOf(Move(plan.where, from, to)) == LostOf(plan.where);
  }

  ghost predicate Returned(pending: map<Peer, Request>, peers: set<Peer>, h: Hash) {
    exists p :: p in peers && p in pending && h in pending[p].hashes
  }

  lemma ReturnOne(pending: map<Peer, Request>, peers: set<Peer>, p: Peer)
    requires p in pending
    ensures forall h :: Returned(pending, peers + {p}, h) <==> Returned(pending, peers, h) || h in pending[p].hashes
  {
  }

  ghost predicate Pending(s: Sched, h: Hash) {
    exists p :: p in s.pending && h in s.pending[p].hashes
  }

  /** In the pool, yet neither queued nor requested. */
  ghost predicate Nowhere(s: Sched, h: Hash) { h in s.pool && h !in s.queue && !Pending(s, h) }

  /** A hash that was scheduled and not taken is exactly one of queued, requested from
      one peer, registered as downloaded, and lost; as often as it was scheduled it is
      there or was taken. While no block was overwritten, those registered as
      downloaded are the cached ones. */
  lemma {:induction false} OnePlace(s: Sched, plan: Plan, h: Hash, p: Peer, q: Peer)
    requires Inv(s, map[], plan)
    ensures multiset(plan.sched)[h] == multiset(plan.out)[h] + if h in s.pool || h in s.blocks then 1 else 0
    ensures h in s.pool <==> h in s.queue || Pending(s, h) || Nowhere(s, h)
    ensures !(h in s.queue && Pending(s, h)) && !(h in s.pool && h in s.blocks)
    ensures Nowhere(s, h) <==> h in LostOf(plan.where)
    ensures p in s.pending && q in s.pending && h in s.pending[p].hashes && h in s.pending[q].hashes ==> p == q
    ensures Kept(s.cache, s.blocks, s.offset) ==> (h in s.blocks <==> Cached(s.cache, h))
  {
    hide Priorities, Busy;
    assert Spot(s, map[], plan.where, h);
    assert IsAt(plan.where, h, InFlight(p)) <==> p in s.pending && h in s.pending[p].hashes;
    if h in plan.where && plan.where[h].InFlight? {
      var r := plan.where[h].peer;
      assert IsAt(plan.where, h, InFlight(r));
    }
  }

  /** A hash that is scheduled and downloaded is in two places, whatever is said about it. */
  lemma {:induction false} TwoPlaces(s: Sched, plan: Plan, h: Hash)
    requires h in s.pool && h in s.blocks
    ensures !Inv(s, map[], plan)
  {
    assert !Spot(s, map[], plan.where, h);
  }

  /** None of the hashes is downloaded; none was scheduled before. */
  ghost predicate Clear(inserts: seq<Hash>, blocks: map<Hash, nat>) { forall h :: h in inserts ==> h !in blocks }

  ghost predicate NewTo(inserts: seq<Hash>, sched: seq<Hash>) { forall h :: h in inserts ==> h !in sched }

  lemma ClearOne(inserts: seq<Hash>, h: Hash, blocks: map<Hash, nat>, sched: seq<Hash>)
    ensures Clear(inserts + [h], blocks) <==> Clear(inserts, blocks) && h !in blocks
    ensures NewTo(inserts + [h], sched) <==> NewTo(inserts, sched) && h !in sched
  {
    assert h in inserts + [h];
    assert forall x :: x in inserts ==> x in inserts + [h];
  }

  lemma {:induction false} InTwoPlaces(s: Sched, inserts: seq<Hash>)
    requires !Clear(inserts, s.blocks) && forall h :: h in inserts ==> h in s.pool
    ensures forall other :: !Inv(s, map[], other)
  {
    hide Inv;
    var h :| h in inserts && h in s.blocks;
    forall other ensures !Inv(s, map[], other) { TwoPlaces(s, other, h); }
  }

  /** The hashes that are not in the pool, once each and in their order. */
  function NewOnes(hashes: seq<Hash>, pool: map<Hash, int>): seq<Hash> {
    if hashes == [] then []
    else
      var less, h := NewOnes(hashes[..|hashes| - 1], pool), hashes[|hashes| - 1];
      if h in pool || h in less then less else less + [h]
  }

  lemma {:induction false} NoneNew(hashes: seq<Hash>, pool: map<Hash, int>)
    requires forall h :: h in hashes ==> h in pool
    ensures NewOnes(hashes, pool) == []
  {
    if hashes != [] { NoneNew(hashes[..|hashes| - 1], pool); }
  }

  lemma NewStep(hashes: seq<Hash>, pool: map<Hash, int>, n: nat)
    requires n < |hashes|
    ensures NewOnes(hashes[..n + 1], pool) ==
            var less := NewOnes(hashes[..n], pool);
            if hashes[n] in pool || hashes[n] in less then less else less + [hashes[n]]
  {
    assert hashes[..n + 1][..n] == hashes[..n];
  }

  lemma {:induction false} NewExactly(hashes: seq<Hash>, pool: map<Hash, int>)
    ensures forall h :: h in NewOnes(hashes, pool) <==> h in hashes && h !in pool
  {
    if hashes != [] {
      var n := |hashes| - 1;
      NewExactly(hashes[..n], pool);
      assert hashes == hashes[..n] + [hashes[n]];
    }
  }

  lemma {:induction false} AllNew(hashes: seq<Hash>)
    requires Distinct(hashes)
    ensures NewOnes(hashes, map[]) == hashes
  {
    if hashes != [] {
      var n := |hashes| - 1;
      AllNew(hashes[..n]);
      assert hashes == hashes[..n] + [hashes[n]];
    }
  }

  /** The queue with the hashes pushed one after the other, from a counter on. */
  ghost predicate Pushed(before: map<Hash, int>, after: map<Hash, int>, inserts: seq<Hash>, counter: nat, fifo: bool) {
    && (forall h :: h in after <==> h in before || h in inserts)
    && (forall i :: 0 <= i < |inserts| ==>
          inserts[i] in after && after[inserts[i]] == if fifo then -(counter + i + 1) else counter + i + 1)
    && (forall h :: h in before && h !in inserts ==> after[h] == before[h])
  }

  lemma PushedNone(queue: map<Hash, int>, counter: nat, fifo: bool)
    ensures Pushed(queue, queue, [], counter, fifo) && Distinct([])
  {
  }

  lemma {:induction false} PushedOne(before: map<Hash, int>, after: map<Hash, int>, inserts: seq<Hash>, counter: nat,
          fifo: bool, h: Hash)
    requires Pushed(before, after, inserts, counter, fifo) && Distinct(inserts) && h !in inserts
    ensures Pushed(before, after[h := Priority(fifo, counter + |inserts| + 1)], inserts + [h], counter, fifo)
    ensures Distinct(inserts + [h])
  {
  }

  lemma {:induction false} PoolsHold(s: Sched, loose: map<Hash, int>, plan: Plan)
    requires Inv(s, loose, plan)
    ensures forall h :: h in s.pool || h in s.blocks <==> h in plan.where
  {
    hide Priorities, Slotted, Busy, Balanced;
    forall h ensures h in s.pool || h in s.blocks <==> h in plan.where { assert Spot(s, loose, plan.where, h); }
  }

  // ---- What a request is ----

  lemma SteadyItself(plan: Plan)
    ensures Steady(plan, plan)
  {
  }

  lemma SteadyAgain(a: Plan, b: Plan, c: Plan)
    requires Steady(a, b) && Steady(b, c)
    ensures Steady(a, c)
  {
  }

  lemma DropsLast(a: Plan, b: Plan, c: Plan, lost: set<Hash>)
    requires Steady(a, b) && Drops(b, c, lost)
    ensures Drops(a, c, lost)
  {
  }

  lemma PutBackIsSteady(s: Sched, loose: map<Hash, int>, send: map<Hash, int>, plan: Plan, skip: map<Hash, int>)
    requires Inv(s, loose, plan) && AllSorted(loose, send, skip)
    ensures Steady(plan, PutBack(plan, skip))
  {
    hide Priorities, Slotted, Busy, Balanced;
    assert LostOf(PutBack(plan, skip).where) == LostOf(plan.where) by {
      forall h ensures h in LostOf(PutBack(plan, skip).where) <==> h in LostOf(plan.where) {
        assert Spot(s, loose, plan.where, h) && Sorted(loose, send, skip, h);
      }
    }
  }

  /** Hashes in hand that nobody puts back are lost. */
  function Abandoned(plan: Plan): Plan {
    plan.(where := Move(plan.where, InHand, Lost))
  }

  lemma {:induction false} AbandonKeeps(s: Sched, loose: map<Hash, int>, plan: Plan)
    requires Inv(s, loose, plan)
    ensures Inv(s, map[], Abandoned(plan)) && Drops(plan, Abandoned(plan), loose.Keys)
  {
    hide Balanced, Slotted;
    var plan' := Abandoned(plan);
    Rebalanced(plan, plan');
    BusyMoves(plan.where, InHand, Lost);
    forall h ensures Spot(s, map[], plan'.where, h) { assert Spot(s, loose, plan.where, h); }
    assert LostOf(plan'.where) == LostOf(plan.where) + loose.Keys by {
      forall h ensures h in LostOf(plan'.where) <==> h in LostOf(plan.where) || h in loose {
        assert Spot(s, loose, plan.where, h);
      }
    }
  }

  lemma PopIsSteady(s: Sched, loose: map<Hash, int>, h: Hash, plan: Plan)
    requires Inv(s, loose, plan) && h in s.queue
    ensures Steady(plan, Popped(plan, h)) && h !in loose
  {
    hide Priorities, Slotted, Busy, Balanced;
    assert Spot(s, loose, plan.where, h);
    assert LostOf(Popped(plan, h).where) == LostOf(plan.where);
  }

  lemma AcceptIsSteady(s: Sched, loose: map<Hash, int>, b: Block, plan: Plan)
    requires Inv(s, loose, plan) && b.hash in loose
    ensures Steady(plan, Accepted(plan, b))
  {
    hide Priorities, Slotted, Busy, Balanced;
    assert Spot(s, loose, plan.where, b.hash);
    assert LostOf(Accepted(plan, b).where) == LostOf(plan.where);
  }

  /** Nothing left in the queue is better than what was looked at. */
  ghost predicate Best(queue: map<Hash, int>, seen: set<Hash>) {
    forall h, x :: h in seen && h in queue && x in queue && x !in seen ==> queue[x] <= queue[h]
  }

  ghost function Taken(queue: map<Hash, int>, seen: set<Hash>): map<Hash, int> {
    map h | h in queue && h in seen :: queue[h]
  }

  /** The hashes looked at that are not to be left out, with their priorities. */
  function Given(queue: map<Hash, int>, seen: set<Hash>, ignored: set<Hash>): map<Hash, int> {
    map h | h in queue && h in seen && h !in ignored :: queue[h]
  }

  lemma NothingSeen(queue: map<Hash, int>, ignored: set<Hash>)
    ensures Taken(queue, {}) == map[] == Given(queue, {}, ignored) && Given(queue, {}, {} - ignored) == map[]
    ensures Best(queue, {}) && queue - {} == queue && queue - ({} - ignored) == queue
  {
  }

  lemma {:induction false} SeeNext(queue: map<Hash, int>, left: map<Hash, int>, seen: set<Hash>, ignored: set<Hash>,
          hash: Hash)
    requires Best(queue, seen) && left == queue - seen && hash in left && seen <= queue.Keys
    requires forall x :: x in left ==> left[x] <= left[hash]
    ensures hash in queue && hash !in seen && queue[hash] == left[hash]
    ensures Best(queue, seen + {hash}) && queue - seen - {hash} == queue - (seen + {hash})
    ensures Taken(queue, seen + {hash}) == Taken(queue, seen)[hash := queue[hash]] && |seen + {hash}| == |seen| + 1
    ensures var send, skip := Given(queue, seen, ignored), Given(queue, seen, seen - ignored);
            if hash in ignored
            then Given(queue, seen + {hash}, ignored) == send
                 && Given(queue, seen + {hash}, seen + {hash} - ignored) == skip[hash := queue[hash]]
            else Given(queue, seen + {hash}, ignored) == send[hash := queue[hash]]
                 && Given(queue, seen + {hash}, seen + {hash} - ignored) == skip
                 && |send[hash := queue[hash]]| == |send| + 1
  {
    assert forall x :: x in queue && x !in seen ==> x in left && left[x] == queue[x];
  }

  lemma {:induction false} SeenSorted(queue: map<Hash, int>, seen: set<Hash>, ignored: set<Hash>)
    ensures AllSorted(Taken(queue, seen), Given(queue, seen, ignored), Given(queue, seen, seen - ignored))
  {
    forall h ensures Sorted(Taken(queue, seen), Given(queue, seen, ignored), Given(queue, seen, seen - ignored), h) {}
  }

  lemma {:induction false} QueueBack(queue: map<Hash, int>, seen: set<Hash>, ignored: set<Hash>)
    ensures queue - seen + Given(queue, seen, seen - ignored) == queue - (seen - ignored)
  {
  }

  lemma {:induction false} GivenSize(queue: map<Hash, int>, seen: set<Hash>, ignored: set<Hash>)
    requires seen <= queue.Keys
    ensures Given(queue, seen, ignored).Keys == seen - ignored && |Given(queue, seen, ignored)| == |seen - ignored|
    ensures |Given(queue, seen, ignored)| == 0 ==> Given(queue, seen, ignored) == map[] && seen - ignored == {}
  {
  }

  lemma AllSeen(queue: map<Hash, int>, seen: set<Hash>)
    requires seen <= queue.Keys
    ensures queue - seen == map[] ==> seen == queue.Keys
  {
    forall h | h in queue && h !in seen ensures h in queue - seen {}
  }

  /** Which hashes a reservation looks at: the best of the queue, up to the room there
      is, until enough are found. */
  ghost predicate LooksAt(queue: map<Hash, int>, seen: set<Hash>, ignored: set<Hash>, count: int, room: int) {
    && seen <= queue.Keys && Best(queue, seen) && |seen| <= room
    && (|seen| == room || |seen - ignored| >= count || seen == queue.Keys)
  }

  lemma LookStops(queue: map<Hash, int>, seen: set<Hash>, ignored: set<Hash>, count: int, room: int)
    requires seen <= queue.Keys && Best(queue, seen) && |seen| <= room
    requires |seen| == room || |Given(queue, seen, ignored)| >= count || queue - seen == map[]
    ensures LooksAt(queue, seen, ignored, count, room)
  {
    hide Best, Given;
    GivenSize(queue, seen, ignored);
    if queue - seen == map[] { AllSeen(queue, seen); }
  }

  lemma HalfFree(s: Sched, plan: Plan)
    requires Inv(s, map[], plan)
    ensures |s.blocks| <= |Busy(plan.where)| <= |s.cache| / 2
  {
    BusySplit(s, plan);
  }

  // ---- What a delivery is ----

  function Hashes(blocks: seq<Block>): set<Hash> {
    set i | 0 <= i < |blocks| :: blocks[i].hash
  }

  /** The k-th block was requested and is the first of its hash. */
  ghost predicate Wanted(requested: map<Hash, int>, blocks: seq<Block>, k: nat)
    requires k < |blocks|
  {
    blocks[k].hash in requested && forall j :: 0 <= j < k ==> blocks[j].hash != blocks[k].hash
  }

  /** What a delivery leaves of a request. */
  function Rest(requested: map<Hash, int>, blocks: seq<Block>): map<Hash, int> {
    map h | h in requested && h !in Hashes(blocks) :: requested[h]
  }

  /** Blocks nobody asked for, or no longer. */
  ghost function Strays(requested: map<Hash, int>, blocks: seq<Block>): (n: nat)
    ensures n <= |blocks|
  {
    if blocks == [] then 0
    else Strays(requested, blocks[..|blocks| - 1]) + if Wanted(requested, blocks, |blocks| - 1) then 0 else 1
  }

  /** The registered heights and the cache after the wanted blocks were merged in. */
  ghost function Stored(blocks: map<Hash, nat>, requested: map<Hash, int>, bs: seq<Block>): map<Hash, nat> {
    if bs == [] then blocks
    else
      var before, n := Stored(blocks, requested, bs[..|bs| - 1]), |bs| - 1;
      if Wanted(requested, bs, n) then before[bs[n].hash := bs[n].height] else before
  }

  ghost function Filled(cache: seq<Option<Block>>, offset: nat, requested: map<Hash, int>, bs: seq<Block>,
          id: Peer): (r: seq<Option<Block>>)
    ensures |r| == |cache|
  {
    if bs == [] then cache
    else
      var before, n := Filled(cache, offset, requested, bs[..|bs| - 1], id), |bs| - 1;
      if Wanted(requested, bs, n) && offset <= bs[n].height < offset + |cache|
      then before[bs[n].height - offset := Some(bs[n].(origin := id))] else before
  }

  /** A requested block that was delivered leaves the pool. */
  function Unpooled(pool: map<Hash, int>, requested: map<Hash, int>, bs: seq<Block>): map<Hash, int> {
    map h | h in pool && !(h in requested && h in Hashes(bs)) :: pool[h]
  }

  /** The queue after these blocks of a request were merged in. */
  ghost function Merged(s: Sched, requested: map<Hash, int>, bs: seq<Block>, id: Peer): Sched {
    s.(pool := Unpooled(s.pool, requested, bs), blocks := Stored(s.blocks, requested, bs),
       cache := Filled(s.cache, s.offset, requested, bs, id))
  }

  lemma {:induction false} MergedNext(s: Sched, requested: map<Hash, int>, bs: seq<Block>, id: Peer, n: nat)
    requires n < |bs|
    ensures var before, b := Merged(s, requested, bs[..n], id), bs[n].(origin := id);
            && before.offset == s.offset && |before.cache| == |s.cache|
            && (!Wanted(requested, bs, n) ==> Merged(s, requested, bs[..n + 1], id) == before)
            && (Wanted(requested, bs, n) && s.offset <= b.height < s.offset + |s.cache| ==>
                  Merged(s, requested, bs[..n + 1], id) == Accept(before, b))
  {
    RestStep(requested, bs, n);
    MergeStep(s.blocks, s.cache, s.offset, requested, bs, id, n);
    hide Stored, Filled, Rest;
    var before, after := Unpooled(s.pool, requested, bs[..n]), Unpooled(s.pool, requested, bs[..n + 1]);
    if Wanted(requested, bs, n) {
      assert after == before - {bs[n].hash};
    } else {
      assert bs[n].hash in requested ==> bs[n].hash in Hashes(bs[..n]) by { RepeatIsIn(requested, bs, n); }
      assert after == before;
    }
  }

  lemma RepeatIsIn(requested: map<Hash, int>, bs: seq<Block>, n: nat)
    requires n < |bs| && !Wanted(requested, bs, n)
    ensures bs[n].hash in requested ==> bs[n].hash in Hashes(bs[..n])
  {
    if bs[n].hash in requested {
      var j :| 0 <= j < n && bs[j].hash == bs[n].hash;
      assert bs[..n][j].hash == bs[n].hash;
    }
  }

  lemma {:induction false} MergeStep(blocks: map<Hash, nat>, cache: seq<Option<Block>>, offset: nat,
          requested: map<Hash, int>, bs: seq<Block>, id: Peer, n: nat)
    requires n < |bs|
    ensures Stored(blocks, requested, bs[..n + 1]) ==
            if Wanted(requested, bs, n) then Stored(blocks, requested, bs[..n])[bs[n].hash := bs[n].height]
            else Stored(blocks, requested, bs[..n])
    ensures Filled(cache, offset, requested, bs[..n + 1], id) ==
            var before := Filled(cache, offset, requested, bs[..n], id);
            if Wanted(requested, bs, n) && offset <= bs[n].height < offset + |cache|
            then before[bs[n].height - offset := Some(bs[n].(origin := id))] else before
  {
    var after := bs[..n + 1];
    assert after[..n] == bs[..n] && after[n] == bs[n];
    assert Wanted(requested, after, n) <==> Wanted(requested, bs, n);
  }

  lemma {:induction false} StraysCount(requested: map<Hash, int>, blocks: seq<Block>)
    ensures Strays(requested, blocks) == 0 <==> forall k :: 0 <= k < |blocks| ==> Wanted(requested, blocks, k)
    ensures Strays(requested, blocks) == |blocks| <==> forall k :: 0 <= k < |blocks| ==> !Wanted(requested, blocks, k)
  {
    if blocks != [] {
      var n := |blocks| - 1;
      StraysCount(requested, blocks[..n]);
      forall k | 0 <= k < n ensures Wanted(requested, blocks[..n], k) <==> Wanted(requested, blocks, k) {}
    }
  }

  lemma {:induction false} RestStep(requested: map<Hash, int>, blocks: seq<Block>, n: nat)
    requires n < |blocks|
    ensures blocks[n].hash in Rest(requested, blocks[..n]) <==> Wanted(requested, blocks, n)
    ensures Rest(requested, blocks[..n + 1]) == Rest(requested, blocks[..n]) - {blocks[n].hash}
    ensures Hashes(blocks[..n + 1]) == Hashes(blocks[..n]) + {blocks[n].hash}
    ensures Strays(requested, blocks[..n + 1]) ==
        Strays(requested, blocks[..n]) + if Wanted(requested, blocks, n) then 0 else 1
  {
    var before, after := blocks[..n], blocks[..n + 1];
    assert after[..n] == before && after[n] == blocks[n];
    assert forall i :: 0 <= i < n ==> before[i] == blocks[i];
    assert Wanted(requested, after, n) <==> Wanted(requested, blocks, n);
    assert Hashes(after) == Hashes(before) + {blocks[n].hash} by {
      forall h | h in Hashes(before) ensures h in Hashes(after) {
        var i :| 0 <= i < n && before[i].hash == h;
        assert after[i].hash == h;
      }
    }
    assert blocks[n].hash in Hashes(before) <==> exists i :: 0 <= i < n && blocks[i].hash == blocks[n].hash;
  }

  lemma DropsKeys(plan: Plan, plan': Plan, lost: set<Hash>)
    requires Drops(plan, plan', lost)
    ensures forall h :: h in plan.where <==> h in plan'.where
  {
    assert forall h :: h in plan.where <==> h in plan.where.Keys;
    assert forall h :: h in plan'.where <==> h in plan'.where.Keys;
  }

  lemma MergeNone(s: Sched, requested: map<Hash, int>, id: Peer)
    ensures Rest(requested, []) == requested && Strays(requested, []) == 0 && Merged(s, requested, [], id) == s
  {
    assert Unpooled(s.pool, requested, []) == s.pool;
  }

  lemma RestStays(rest: map<Hash, int>, h: Hash)
    requires h !in rest
    ensures rest - {h} == rest
  {
  }

  /** The answer to a delivery whose blocks all fit: fine when every block was wanted,
      stale when there were blocks and none was, several failures otherwise. */
  ghost function Verdict(requested: map<Hash, int>, blocks: seq<Block>): Delivery {
    if Strays(requested, blocks) == 0 then Delivered
    else if Strays(requested, blocks) == |blocks| then StaleDelivery
    else MultipleFailures
  }

  lemma {:induction false} VerdictExactly(requested: map<Hash, int>, blocks: seq<Block>)
    ensures Verdict(requested, blocks) == Delivered <==> forall k :: 0 <= k < |blocks| ==> Wanted(requested, blocks, k)
    ensures Verdict(requested, blocks) == StaleDelivery <==>
            blocks != [] && forall k :: 0 <= k < |blocks| ==> !Wanted(requested, blocks, k)
  {
    hide Wanted;
    StraysCount(requested, blocks);
  }

  /** What was delivered and wanted is registered with the height of its first block, and
      nothing else changes: requested hashes are downloaded or left of the request. */
  lemma {:induction false} StoredExactly(blocks: map<Hash, nat>, requested: map<Hash, int>, bs: seq<Block>, h: Hash)
    ensures h in Stored(blocks, requested, bs) <==> h in blocks || (h in requested && h in Hashes(bs))
    ensures h in requested ==> (h in Rest(requested, bs) <==> h !in Hashes(bs))
    ensures !(h in requested && h in Hashes(bs)) && h in blocks ==> Stored(blocks, requested, bs)[h] == blocks[h]
    ensures forall k :: 0 <= k < |bs| && Wanted(requested, bs, k) && bs[k].hash == h ==>
              h in Stored(blocks, requested, bs) && Stored(blocks, requested, bs)[h] == bs[k].height
  {
    if bs != [] {
      var n := |bs| - 1;
      var less := bs[..n];
      StoredExactly(blocks, requested, less, h);
      assert bs[..n + 1] == bs;
      RestStep(requested, bs, n);
      MergeStep(blocks, [], 0, requested, bs, "", n);
      forall k | 0 <= k < n ensures Wanted(requested, less, k) <==> Wanted(requested, bs, k) {}
      if h in Hashes(less) {
        var i :| 0 <= i < n && less[i].hash == h;
        assert bs[i].hash == h;
      }
    }
  }

  // ---- Blocks that overwrite others ----

  /** The wanted blocks have different heights, and their slots are free. */
  ghost predicate NoClash(cache: seq<Option<Block>>, offset: nat, requested: map<Hash, int>, bs: seq<Block>) {
    forall k :: 0 <= k < |bs| && Wanted(requested, bs, k) ==> Alone(cache, offset, requested, bs, k)
  }

  ghost predicate Alone(cache: seq<Option<Block>>, offset: nat, requested: map<Hash, int>, bs: seq<Block>, k: nat)
    requires k < |bs|
  {
    && (offset <= bs[k].height < offset + |cache| ==> cache[bs[k].height - offset] == None)
    && (forall j :: 0 <= j < k && Wanted(requested, bs, j) ==> bs[j].height != bs[k].height)
  }

  ghost predicate Fit(cache: seq<Option<Block>>, offset: nat, requested: map<Hash, int>, bs: seq<Block>) {
    forall k :: 0 <= k < |bs| && Wanted(requested, bs, k) ==> offset <= bs[k].height < offset + |cache|
  }

  lemma {:induction false} WantedBefore(requested: map<Hash, int>, bs: seq<Block>, n: nat, k: nat)
    requires k < n <= |bs|
    ensures Wanted(requested, bs[..n], k) <==> Wanted(requested, bs, k)
  {
  }

  lemma {:induction false} ClashStep(cache: seq<Option<Block>>, offset: nat, requested: map<Hash, int>, bs: seq<Block>)
    requires bs != []
    ensures var n := |bs| - 1;
            && (Fit(cache, offset, requested, bs) ==> Fit(cache, offset, requested, bs[..n]))
            && (NoClash(cache, offset, requested, bs) <==>
                  && NoClash(cache, offset, requested, bs[..n])
                  && (Wanted(requested, bs, n) ==> Alone(cache, offset, requested, bs, n)))
  {
    var n := |bs| - 1;
    var less := bs[..n];
    forall k | 0 <= k < n
      ensures Wanted(requested, less, k) <==> Wanted(requested, bs, k)
      ensures Alone(cache, offset, requested, less, k) <==> Alone(cache, offset, requested, bs, k)
    {
      WantedBefore(requested, bs, n, k);
      forall j | 0 <= j < k ensures Wanted(requested, less, j) <==> Wanted(requested, bs, j) {
        WantedBefore(requested, bs, n, j);
      }
    }
  }

  /** A slot is free after a delivery if and only if it was before and no wanted block was for it. */
  lemma {:induction false} FreeExactly(cache: seq<Option<Block>>, offset: nat, requested: map<Hash, int>,
          bs: seq<Block>, id: Peer, i: nat)
    requires i < |cache|
    ensures Filled(cache, offset, requested, bs, id)[i] == None <==>
              && cache[i] == None
              && forall k :: 0 <= k < |bs| && Wanted(requested, bs, k) ==> bs[k].height != offset + i
  {
    if bs != [] {
      var n := |bs| - 1;
      FreeExactly(cache, offset, requested, bs[..n], id, i);
      forall k | 0 <= k < n ensures Wanted(requested, bs[..n], k) <==> Wanted(requested, bs, k) {
        WantedBefore(requested, bs, n, k);
      }
    }
  }

  /** The k-th block is the last wanted one for a height. */
  ghost predicate LastFor(requested: map<Hash, int>, bs: seq<Block>, k: nat, height: nat) {
    && k < |bs| && Wanted(requested, bs, k) && bs[k].height == height
    && forall j :: k < j < |bs| && Wanted(requested, bs, j) ==> bs[j].height != height
  }

  /** What a slot holds after a delivery: the last wanted block for it, marked with its
      peer, or what was there. */
  lemma {:induction false} FilledExactly(cache: seq<Option<Block>>, offset: nat, requested: map<Hash, int>,
          bs: seq<Block>, id: Peer, i: nat, k: nat)
    requires i < |cache|
    ensures LastFor(requested, bs, k, offset + i) ==>
              Filled(cache, offset, requested, bs, id)[i] == Some(Block(bs[k].hash, offset + i, id))
    ensures (forall j :: 0 <= j < |bs| && Wanted(requested, bs, j) ==> bs[j].height != offset + i) ==>
              Filled(cache, offset, requested, bs, id)[i] == cache[i]
  {
    if bs != [] {
      var n := |bs| - 1;
      FilledExactly(cache, offset, requested, bs[..n], id, i, k);
      forall j | 0 <= j < n ensures Wanted(requested, bs[..n], j) <==> Wanted(requested, bs, j) {
        WantedBefore(requested, bs, n, j);
      }
      if LastFor(requested, bs, k, offset + i) && k < n { assert LastFor(requested, bs[..n], k, offset + i); }
    }
  }

  /** Cached blocks stay registered at their slots. */
  lemma {:induction false} FilledSlotted(cache: seq<Option<Block>>, blocks: map<Hash, nat>, offset: nat,
          requested: map<Hash, int>, bs: seq<Block>, id: Peer)
    requires Slotted(cache, blocks, offset) && forall h :: h in requested ==> h !in blocks
    ensures Slotted(Filled(cache, offset, requested, bs, id), Stored(blocks, requested, bs), offset)
  {
    if bs != [] {
      var n := |bs| - 1;
      FilledSlotted(cache, blocks, offset, requested, bs[..n], id);
      NotStored(blocks, requested, bs);
    }
  }

  lemma {:induction false} NotStored(blocks: map<Hash, nat>, requested: map<Hash, int>, bs: seq<Block>)
    requires bs != [] && forall h :: h in requested ==> h !in blocks
    ensures Wanted(requested, bs, |bs| - 1) ==> bs[|bs| - 1].hash !in Stored(blocks, requested, bs[..|bs| - 1])
  {
    var n := |bs| - 1;
    StoredExactly(blocks, requested, bs[..n], bs[n].hash);
  }

  /** A block that goes to a slot keeps the others if and only if the slot was free. */
  lemma {:induction false} PutKeepsExactly(cache: seq<Option<Block>>, blocks: map<Hash, nat>, offset: nat, b: Block)
    requires Slotted(cache, blocks, offset) && b.hash !in blocks && offset <= b.height < offset + |cache|
    ensures Kept(cache[b.height - offset := Some(b)], blocks[b.hash := b.height], offset)
            <==> Kept(cache, blocks, offset) && cache[b.height - offset] == None
  {
    var i := b.height - offset;
    var cache', blocks' := cache[i := Some(b)], blocks[b.hash := b.height];
    forall h | h in blocks
      ensures InSlot(cache', blocks'[h], offset, h) <==> InSlot(cache, blocks[h], offset, h) && blocks[h] != b.height
    {}
    assert InSlot(cache', b.height, offset, b.hash);
    assert cache[i].Some? ==> blocks[cache[i].value.hash] == b.height;
    assert Kept(cache', blocks', offset) ==> forall h :: h in blocks ==> InSlot(cache', blocks'[h], offset, h);
  }

  /** After a delivery every registered block is in its slot if and only if it was so
      before and no wanted block meets another: neither delivered nor cached. */
  lemma {:induction false} KeptExactly(cache: seq<Option<Block>>, blocks: map<Hash, nat>, offset: nat,
          requested: map<Hash, int>, bs: seq<Block>, id: Peer)
    requires Slotted(cache, blocks, offset) && Fit(cache, offset, requested, bs)
    requires forall h :: h in requested ==> h !in blocks
    ensures Kept(Filled(cache, offset, requested, bs, id), Stored(blocks, requested, bs), offset)
            <==> Kept(cache, blocks, offset) && NoClash(cache, offset, requested, bs)
  {
    hide Kept, Slotted, Fit, NoClash, Wanted, Alone, Filled, Stored;
    if bs == [] {
      NothingKept(cache, blocks, offset, requested, id);
    } else {
      var n := |bs| - 1;
      assert bs[..n + 1] == bs;
      MergeStep(blocks, cache, offset, requested, bs, id, n);
      ClashStep(cache, offset, requested, bs);
      KeptExactly(cache, blocks, offset, requested, bs[..n], id);
      if Wanted(requested, bs, n) {
        var b := bs[n].(origin := id);
        FitsAt(cache, offset, requested, bs, n);
        FilledSlotted(cache, blocks, offset, requested, bs[..n], id);
        NotStored(blocks, requested, bs);
        PutKeepsExactly(Filled(cache, offset, requested, bs[..n], id), Stored(blocks, requested, bs[..n]), offset, b);
        AloneIsFree(cache, offset, requested, bs, id);
      }
    }
  }

  lemma NothingKept(cache: seq<Option<Block>>, blocks: map<Hash, nat>, offset: nat, requested: map<Hash, int>, id: Peer)
    ensures Filled(cache, offset, requested, [], id) == cache && Stored(blocks, requested, []) == blocks
    ensures NoClash(cache, offset, requested, [])
  {
  }

  lemma FitsAt(cache: seq<Option<Block>>, offset: nat, requested: map<Hash, int>, bs: seq<Block>, k: nat)
    requires Fit(cache, offset, requested, bs) && k < |bs| && Wanted(requested, bs, k)
    ensures offset <= bs[k].height < offset + |cache|
  {
  }

  lemma {:induction false} AloneIsFree(cache: seq<Option<Block>>, offset: nat, requested: map<Hash, int>,
          bs: seq<Block>, id: Peer)
    requires bs != [] && offset <= bs[|bs| - 1].height < offset + |cache|
    ensures Alone(cache, offset, requested, bs, |bs| - 1) <==>
            Filled(cache, offset, requested, bs[..|bs| - 1], id)[bs[|bs| - 1].height - offset] == None
  {
    var n := |bs| - 1;
    FreeExactly(cache, offset, requested, bs[..n], id, bs[n].height - offset);
    forall k | 0 <= k < n ensures Wanted(requested, bs[..n], k) <==> Wanted(requested, bs, k) {
      WantedBefore(requested, bs, n, k);
    }
  }

  lemma {:induction false} DeliveryKept(s: Sched, plan: Plan, id: Peer, bs: seq<Block>, n: nat)
    requires Inv(s, map[], plan) && id in s.pending && n <= |bs|
    requires forall k :: 0 <= k < n && Wanted(s.pending[id].hashes, bs, k) ==>
               s.offset <= bs[k].height < s.offset + |s.cache|
    ensures var requested := s.pending[id].hashes;
            var merged := Merged(Unpend(s, id), requested, bs[..n], id);
            && merged.offset == s.offset
            && (Kept(merged.cache, merged.blocks, merged.offset) <==>
                  Kept(s.cache, s.blocks, s.offset) && NoClash(s.cache, s.offset, requested, bs[..n]))
  {
    hide Kept, NoClash, Slotted, Balanced, Busy, Priorities;
    var requested := s.pending[id].hashes;
    forall h | h in requested ensures h !in s.blocks { assert Spot(s, map[], plan.where, h); }
    forall k | 0 <= k < n ensures Wanted(requested, bs[..n], k) <==> Wanted(requested, bs, k) {
      WantedBefore(requested, bs, n, k);
    }
    KeptExactly(s.cache, s.blocks, s.offset, requested, bs[..n], id);
  }

  /** In first-in-first-out runs with honest heights no block is overwritten. */
  lemma {:induction false} OrderedIsKept(s: Sched, plan: Plan)
    requires Inv(s, map[], plan) && Ordered(s, plan, s.offset)
    ensures Kept(s.cache, s.blocks, s.offset)
  {
    hide Priorities, Busy, Balanced, Slotted;
    forall h | h in s.blocks ensures InSlot(s.cache, s.blocks[h], s.offset, h) {
      assert Spot(s, map[], plan.where, h) && Scheduled(plan, h);
      var i :| plan.taken <= i < |plan.sched| && plan.sched[i] == h;
      assert InTurn(s, plan, s.offset, i);
    }
  }

  /** Taking blocks brings no overwritten one back and loses none. */
  lemma {:induction false} TakeKeepsExactly(s: Sched, n: nat)
    requires Slotted(s.cache, s.blocks, s.offset) && n <= |s.cache| && forall i :: 0 <= i < n ==> s.cache[i].Some?
    ensures var s' := Take(s, n);
            Kept(s'.cache, s'.blocks, s'.offset) <==> Kept(s.cache, s.blocks, s.offset)
  {
    var s' := Take(s, n);
    forall h | h in s.blocks
      ensures h in s'.blocks ==>
                (InSlot(s'.cache, s'.blocks[h], s'.offset, h) <==> InSlot(s.cache, s.blocks[h], s.offset, h))
      ensures h !in s'.blocks ==> InSlot(s.cache, s.blocks[h], s.offset, h)
    {
      TakeSlot(s, n, h);
    }
  }

  lemma {:induction false} TakeLoses(s: Sched, plan: Plan, n: nat)
    requires Inv(s, map[], plan) && n <= |s.cache| && forall i :: 0 <= i < n ==> s.cache[i].Some?
    ensures LostOf(TakenPlan(s, plan, n).where) == LostOf(plan.where)
    ensures var s' := Take(s, n);
            Kept(s'.cache, s'.blocks, s'.offset) <==> Kept(s.cache, s.blocks, s.offset)
  {
    hide Kept, Priorities, Busy, Balanced;
    TakeKeepsExactly(s, n);
    forall h | h in TakenHashes(s.cache, n) ensures h !in LostOf(plan.where) { assert Spot(s, map[], plan.where, h); }
  }

  lemma {:induction false} TakeSlot(s: Sched, n: nat, h: Hash)
    requires Slotted(s.cache, s.blocks, s.offset) && n <= |s.cache| && forall i :: 0 <= i < n ==> s.cache[i].Some?
    requires h in s.blocks
    ensures var s' := Take(s, n);
            && (h in s'.blocks ==>
                  (InSlot(s'.cache, s'.blocks[h], s'.offset, h) <==> InSlot(s.cache, s.blocks[h], s.offset, h)))
            && (h !in s'.blocks ==> InSlot(s.cache, s.blocks[h], s.offset, h))
  {
    var s', at := Take(s, n), s.blocks[h] - s.offset;
    if h !in s'.blocks {
      var i :| 0 <= i < n && s.cache[i].value.hash == h;
      assert at == i;
    } else if s'.offset <= s.blocks[h] < s'.offset + |s.cache| {
      if at < |s.cache| { assert s'.cache[at - n] == s.cache[at]; }
    } else if 0 <= at < n {
      assert s.cache[at].value.hash in TakenHashes(s.cache, n);
    }
  }

  datatype Delivery = Delivered | NoFetchesPending | InvalidChain | StaleDelivery | MultipleFailures

  class Queue {
    var hashPool: map<Hash, int>
    var hashQueue: map<Hash, int>
    var hashCounter: nat
    var pendPool: map<Peer, Request>
    var blockPool: map<Hash, nat>
    var blockCache: array<Option<Block>>
    var blockOffset: nat
    ghost var plan: Plan

    ghost function State(): Sched
      reads this, blockCache
    {
      Sched(hashPool, hashQueue, hashCounter, pendPool, blockPool, blockCache[..], blockOffset)
    }

    ghost predicate Valid()
      reads this, blockCache
    {
      Inv(State(), map[], plan)
    }

    /** The hashes not yet taken name consecutive heights from `offset` on. */
    ghost predicate InOrder(offset: nat)
      reads this, blockCache
    {
      Ordered(State(), plan, offset)
    }

    constructor ()
      ensures Valid() && forall o :: InOrder(o)
      ensures State() == Sched(map[], map[], 0, map[], map[], Nones(BLOCK_CACHE_LIMIT), 0) && fresh(blockCache)
      ensures plan == Plan(map[], map[], [], 0, [])
    {
      hashPool, hashQueue, hashCounter, pendPool, blockPool := map[], map[], 0, map[], map[];
      blockCache := new Option<Block>[BLOCK_CACHE_LIMIT](_ => None);
      blockOffset := 0;
      plan := Plan(map[], map[], [], 0, []);
      new;
      assert Busy(map[]) == {};
      assert blockCache[..] == Nones(BLOCK_CACHE_LIMIT);
    }

    /** Every registered block is in its slot. */
    ghost predicate AllKept()
      reads `blockPool, `blockCache, `blockOffset, blockCache
    {
      Kept(blockCache[..], blockPool, blockOffset)
    }

    /** Back to the state of a new queue: lost hashes may be scheduled again. */
    method Reset()
      modifies this
      ensures Valid() && forall o :: InOrder(o)
      ensures State() == Sched(map[], map[], 0, map[], map[], Nones(BLOCK_CACHE_LIMIT), 0) && fresh(blockCache)
      ensures plan == Plan(map[], map[], [], 0, [])
    {
      hashPool, hashQueue, hashCounter, pendPool, blockPool := map[], map[], 0, map[], map[];
      blockCache := new Option<Block>[BLOCK_CACHE_LIMIT](_ => None);
      blockOffset := 0;
      plan := Plan(map[], map[], [], 0, []);
      assert Busy(map[]) == {};
      assert blockCache[..] == Nones(BLOCK_CACHE_LIMIT);
    }

    /** Offset of the first block to come; it never moves back. Moved over cached blocks
        it leaves them at the wrong slots. */
    method Prepare(offset: nat)
      requires Valid()
      modifies `blockOffset
      ensures State() == old(State()).(offset := if old(blockOffset) < offset then offset else old(blockOffset))
      ensures Valid() <==> offset <= old(blockOffset) || blockCache[..] == Nones(blockCache.Length)
      ensures Valid() ==> (AllKept() <==> old(AllKept()))
      ensures forall o :: old(InOrder(o)) ==> InOrder(o)
    {
      hide Priorities, Busy, Balanced;
      ghost var before := State();
      if blockOffset < offset {
        blockOffset := offset;
      }
      forall h ensures Spot(State(), map[], plan.where, h) { assert Spot(before, map[], plan.where, h); }
      PrioritiesMove(before, State(), plan);
      forall o | old(InOrder(o)) ensures InOrder(o) { OrderSurvives(before, State(), plan, plan, o); }
      if !(blockCache[..] == Nones(blockCache.Length)) {
        var i :| 0 <= i < blockCache.Length && blockCache[..][i] != None;
        assert before.cache[i].value.height == before.offset + i;
      }
    }

    /** The number of hashes in flight. */
    method PendingCount() returns (n: nat)
      requires Valid()
      ensures n + |blockPool| == |Busy(plan.where)|
    {
      n := 0;
      var peers := pendPool.Keys;
      ghost var seen: set<Peer> := {};
      assert FlightOf(plan.where, seen) == {};
      while peers != {}
        invariant seen + peers == pendPool.Keys && seen !! peers
        invariant n == |FlightOf(plan.where, seen)|
        decreases peers
      {
        var p :| p in peers;
        CountStep(State(), plan, seen, p);
        n := n + |pendPool[p].hashes|;
        peers, seen := peers - {p}, seen + {p};
      }
      assert seen == pendPool.Keys;
      BusySplit(State(), plan);
    }

    /** In-flight plus downloaded blocks never pass half the cache, so the check
        for a full cache never fires. */
    method Throttle() returns (throttled: bool)
      requires Valid()
      ensures throttled <==> |Busy(plan.where)| >= blockCache.Length
      ensures throttled <==> blockCache.Length == 0
    {
      var pending := PendingCount();
      throttled := pending >= blockCache.Length - |blockPool|;
    }

    /** Returns the hashes of a pending request to the queue. */
    method Cancel(p: Peer)
      requires Valid() && p in pendPool
      modifies `hashQueue, `pendPool, `plan
      ensures Valid() && pendPool == old(pendPool) - {p} && hashQueue == old(hashQueue) + old(pendPool)[p].hashes
      ensures forall o :: old(InOrder(o)) ==> InOrder(o)
      ensures plan == Requeued(Unpended(old(plan), p)) && Steady(old(plan), plan)
    {
      hide Inv, Ordered;
      ghost var s := State();
      UnpendKeeps(s, p, plan);
      RequeueKeeps(Unpend(s, p), pendPool[p].hashes, Unpended(plan, p));
      hashQueue := hashQueue + pendPool[p].hashes;
      pendPool := pendPool - {p};
      plan := Requeued(Unpended(plan, p));
      assert State() == Requeue(Unpend(s, p), s.pending[p].hashes);
      MoveIsSteady(old(plan), InFlight(p), InHand);
      MoveIsSteady(Unpended(old(plan), p), InHand, Queued);
    }

    /** Every request older than the timeout goes back to the queue, and no other. */
    method Expire(now: int, timeout: int) returns (peers: set<Peer>)
      requires Valid()
      modifies `hashQueue, `pendPool, `plan
      ensures Valid() && Steady(old(plan), plan)
      ensures forall p :: p in peers <==> p in old(pendPool) && now - old(pendPool)[p].time > timeout
      ensures pendPool == old(pendPool) - peers
      ensures forall h :: h in hashQueue <==> h in old(hashQueue) || Returned(old(pendPool), peers, h)
      ensures forall o :: old(InOrder(o)) ==> InOrder(o)
    {
      hide Valid, InOrder;
      peers := set p | p in pendPool && now - pendPool[p].time > timeout;
      var todo := peers;
      while todo != {}
        invariant todo <= peers && Valid() && Steady(old(plan), plan) && pendPool == old(pendPool) - (peers - todo)
        invariant forall h :: h in hashQueue <==> h in old(hashQueue) || Returned(old(pendPool), peers - todo, h)
        invariant forall o :: old(InOrder(o)) ==> InOrder(o)
        decreases todo
      {
        var p :| p in todo;
        ghost var before := hashQueue;
        Cancel(p);
        ReturnOne(old(pendPool), peers - todo, p);
        todo := todo - {p};
        assert peers - todo == peers - (todo + {p}) + {p} && todo + {p} - {p} == todo;
      }
      assert peers - {} == peers;
    }

    /** Schedules one new hash with the next counter value. */
    method InsertOne(hash: Hash, fifo: bool)
      requires hash !in hashPool
      modifies `hashPool, `hashQueue, `hashCounter, `plan
      ensures State() == Schedule(old(State()), hash, Priority(fifo, old(hashCounter) + 1))
      ensures if old(Valid()) && hash !in blockPool
              then Valid() && plan == ScheduledPlan(old(plan), hash, Priority(fifo, hashCounter)) else plan == old(plan)
      ensures LostOf(plan.where) == LostOf(old(plan.where))
      ensures old(Valid()) && hash !in blockPool && fifo && hash !in old(plan.sched) ==>
          forall o :: old(InOrder(o)) ==> InOrder(o)
    {
      hide Inv, Ordered;
      ghost var s, before := State(), plan;
      hashCounter := hashCounter + 1;
      var priority := Priority(fifo, hashCounter);
      hashPool := hashPool[hash := hashCounter];
      hashQueue := hashQueue[hash := priority];
      assert State() == Schedule(s, hash, priority);
      if Inv(s, map[], before) && hash !in blockPool {
        plan := ScheduledPlan(plan, hash, priority);
        ScheduleKeeps(s, before, hash, priority);
        NotPlaced(s, before, hash);
        assert LostOf(plan.where) == LostOf(before.where);
        if fifo && hash !in before.sched {
          forall o | old(InOrder(o)) ensures InOrder(o) { ScheduleInOrder(s, before, hash, o); }
        }
      }
    }

    /** What holds once these hashes were scheduled on top of s and its plan. */
    ghost predicate Grown(s: Sched, before: Plan, inserts: seq<Hash>, fifo: bool)
      reads this, blockCache
    {
      && (forall h :: h in hashPool <==> h in s.pool || h in inserts)
      && (forall i :: 0 <= i < |inserts| ==> inserts[i] in hashPool && hashPool[inserts[i]] == s.counter + i + 1)
      && Distinct(inserts) && hashCounter == s.counter + |inserts|
      && Pushed(s.queue, hashQueue, inserts, s.counter, fifo) && LostOf(plan.where) == LostOf(before.where)
      && (Clear(inserts, blockPool) ==>
            && Valid() && plan.sched == before.sched + inserts
            && plan.taken == before.taken && plan.out == before.out)
    }

    method InsertNext(hash: Hash, fifo: bool, ghost s: Sched, ghost before: Plan, ghost inserts: seq<Hash>)
      requires Grown(s, before, inserts, fifo) && hash !in hashPool
      modifies `hashPool, `hashQueue, `hashCounter, `plan
      ensures Grown(s, before, inserts + [hash], fifo)
      ensures Clear(inserts + [hash], blockPool) && hash !in before.sched && fifo ==>
          forall o :: old(InOrder(o)) ==> InOrder(o)
    {
      hide Inv, InOrder, Pushed, Distinct, Clear, LostOf;
      PushedOne(s.queue, hashQueue, inserts, s.counter, fifo, hash);
      ClearOne(inserts, hash, blockPool, before.sched);
      InsertOne(hash, fifo);
      assert before.sched + inserts + [hash] == before.sched + (inserts + [hash]);
    }

    /** Schedules the hashes not yet in the pool, in arrival order. One that is downloaded
        and not yet taken is scheduled once more, and then is in two places. */
    method Insert(hashes: seq<Hash>, fifo: bool) returns (inserts: seq<Hash>)
      requires Valid()
      modifies `hashPool, `hashQueue, `hashCounter, `plan
      ensures inserts == NewOnes(hashes, old(hashPool))
      ensures forall h :: h in inserts <==> h in hashes && h !in old(hashPool)
      ensures Grown(old(State()), old(plan), inserts, fifo)
      ensures !Clear(inserts, blockPool) ==> forall other :: !Inv(State(), map[], other)
      ensures Clear(inserts, blockPool) && NewTo(inserts, old(plan.sched)) && fifo ==>
          forall o :: old(InOrder(o)) ==> InOrder(o)
    {
      hide Inv, InOrder, Pushed, Distinct, Clear, NewTo, LostOf, NewOnes;
      inserts := [];
      assert hashes[..0] == [];
      NoneNew([], hashPool);
      PushedNone(hashQueue, hashCounter, fifo);
      hide Grown;
      for n := 0 to |hashes|
        invariant Grown(old(State()), old(plan), inserts, fifo)
        invariant forall h :: h in hashPool <==> h in old(hashPool) || h in inserts
        invariant inserts == NewOnes(hashes[..n], old(hashPool))
        invariant Clear(inserts, blockPool) && NewTo(inserts, old(plan.sched)) && fifo ==>
            forall o :: old(InOrder(o)) ==> InOrder(o)
      {
        NewStep(hashes, old(hashPool), n);
        if hashes[n] !in hashPool {
          ClearOne(inserts, hashes[n], blockPool, old(plan.sched));
          InsertNext(hashes[n], fifo, old(State()), old(plan), inserts);
          inserts := inserts + [hashes[n]];
          GrownPool(old(State()), old(plan), inserts, fifo);
        }
      }
      assert hashes[..|hashes|] == hashes;
      NewExactly(hashes, old(hashPool));
      if !Clear(inserts, blockPool) { InTwoPlaces(State(), inserts); }
    }

    lemma GrownPool(s: Sched, before: Plan, inserts: seq<Hash>, fifo: bool)
      requires Grown(s, before, inserts, fifo)
      ensures forall h :: h in hashPool <==> h in s.pool || h in inserts
    {
    }

    /** Takes one hash of highest priority off the queue. */
    method PopHighest(ghost loose: map<Hash, int>) returns (hash: Hash, priority: int)
      requires hashQueue != map[] && Inv(State(), loose, plan) && |Busy(plan.where)| < blockCache.Length / 2
      modifies `hashQueue, `plan
      ensures hash in old(hashQueue) && priority == old(hashQueue)[hash]
      ensures Inv(State(), loose[hash := priority], plan) && hash !in loose
      ensures plan == Popped(old(plan), hash) && Steady(old(plan), plan) && hashQueue == old(hashQueue) - {hash}
      ensures forall x :: x in old(hashQueue) ==> old(hashQueue)[x] <= priority
      ensures |Busy(plan.where)| == |Busy(old(plan).where)| + 1
      ensures forall o :: old(InOrder(o)) ==> InOrder(o)
    {
      HasHighest(hashQueue);
      hash :| hash in hashQueue && forall x :: x in hashQueue ==> hashQueue[x] <= hashQueue[hash];
      priority := hashQueue[hash];
      ghost var s, before := State(), plan;
      hide Inv, Ordered, Steady, Busy;
      PopIsSteady(s, loose, hash, plan);
      PopKeeps(s, loose, hash, before);
      forall o | old(InOrder(o)) ensures Ordered(PopOff(s, hash), Popped(before, hash), o) {
        PopInOrder(s, loose, hash, before, o);
      }
      hashQueue := hashQueue - {hash};
      plan := Popped(plan, hash);
      assert State() == PopOff(s, hash);
    }

    /** Gives a peer up to `count` hashes, leaving out those it is known not to have.
        The hashes looked at, ignored ones included, are the best of the queue; there
        are no more of them than half the cache has room for, and fewer only when the
        request is full or the queue is empty. */
    method Reserve(p: Peer, ignored: set<Hash>, count: int, now: int)
      returns (request: Option<Request>, ghost seen: set<Hash>)
      requires Valid()
      modifies `hashQueue, `pendPool, `plan
      ensures Valid() && Steady(old(plan), plan)
      ensures forall o :: old(InOrder(o)) ==> InOrder(o)
      ensures if p in old(pendPool) then seen == {}
              else LooksAt(old(hashQueue), seen, ignored, count, blockCache.Length / 2 - |Busy(old(plan).where)|)
      ensures request ==
          if seen - ignored == {} then None else Some(Request(Given(old(hashQueue), seen, ignored), now))
      ensures request.Some? ==> |request.value.hashes| <= count
      ensures pendPool == if request.Some? then old(pendPool)[p := request.value] else old(pendPool)
      ensures hashQueue == old(hashQueue) - (seen - ignored)
    {
      hide Inv, Ordered, Best, Given, Taken, Steady, Busy;
      request, seen := None, {};
      HalfFree(State(), plan);
      SteadyItself(plan);
      NothingSeen(hashQueue, ignored);
      if hashQueue != map[] && p !in pendPool && blockCache.Length / 2 - |blockPool| != 0 {
        request, seen := Assemble(p, ignored, count, now);
      }
    }

    method Assemble(p: Peer, ignored: set<Hash>, count: int, now: int)
      returns (request: Option<Request>, ghost seen: set<Hash>)
      requires Valid() && p !in pendPool && |Busy(plan.where)| <= blockCache.Length / 2
      modifies `hashQueue, `pendPool, `plan
      ensures Valid() && Steady(old(plan), plan)
      ensures forall o :: old(InOrder(o)) ==> InOrder(o)
      ensures LooksAt(old(hashQueue), seen, ignored, count, blockCache.Length / 2 - |Busy(old(plan).where)|)
      ensures request ==
          if seen - ignored == {} then None else Some(Request(Given(old(hashQueue), seen, ignored), now))
      ensures request.Some? ==> |request.value.hashes| <= count
      ensures pendPool == if request.Some? then old(pendPool)[p := request.value] else old(pendPool)
      ensures hashQueue == old(hashQueue) - (seen - ignored)
    {
      hide Inv, Ordered, Best, Given, Taken, Steady, Busy;
      request := None;
      var pending := PendingCount();
      var space := blockCache.Length / 2 - |blockPool| - pending;
      var send;
      send, seen := Collect(ignored, count, space);
      GivenSize(old(hashQueue), seen, ignored);
      if |send| != 0 {
        request := Some(Request(send, now));
        ghost var before := plan;
        Dispatch(p, request.value);
        SteadyAgain(old(plan), before, plan);
      }
    }

    /** The hashes in hand become the peer's request. */
    method Dispatch(p: Peer, request: Request)
      requires Inv(State(), request.hashes, plan) && p !in pendPool
      modifies `pendPool, `plan
      ensures Valid() && Steady(old(plan), plan) && pendPool == old(pendPool)[p := request]
      ensures forall o :: old(InOrder(o)) ==> InOrder(o)
    {
      hide Inv, Ordered;
      ghost var s := State();
      AssignKeeps(s, request.hashes, p, request.time, plan);
      MoveIsSteady(plan, InHand, InFlight(p));
      pendPool := pendPool[p := request];
      plan := Assigned(plan, p);
      assert State() == Assign(s, p, request);
    }

    /** The hashes looked at, and the return of the skipped ones. */
    method Collect(ignored: set<Hash>, count: int, space: int) returns (send: map<Hash, int>, ghost seen: set<Hash>)
      requires Valid() && |Busy(plan.where)| + space == blockCache.Length / 2 && space >= 0
      modifies `hashQueue, `plan
      ensures Inv(State(), send, plan) && Steady(old(plan), plan)
      ensures forall o :: old(InOrder(o)) ==> InOrder(o)
      ensures LooksAt(old(hashQueue), seen, ignored, count, space)
      ensures send == Given(old(hashQueue), seen, ignored) && (|send| == 0 || |send| <= count)
      ensures hashQueue == old(hashQueue) - (seen - ignored)
    {
      hide Inv, InOrder, AllSorted, Busy, LooksAt, Steady, Given, Taken;
      var skip;
      send, skip, seen := Look(ignored, count, space);
      SeenSorted(old(hashQueue), seen, ignored);
      ghost var before := plan;
      ReturnSkipped(Taken(old(hashQueue), seen), send, skip);
      SteadyAgain(old(plan), before, plan);
      QueueBack(old(hashQueue), seen, ignored);
    }

    /** One turn of the selection loop: the best hash left is sent or skipped. */
    method LookOne(ghost queue: map<Hash, int>, ghost seen: set<Hash>, ignored: set<Hash>,
            sent: map<Hash, int>, skipped: map<Hash, int>)
      returns (send: map<Hash, int>, skip: map<Hash, int>, hash: Hash)
      requires Inv(State(), Taken(queue, seen), plan) && |Busy(plan.where)| < blockCache.Length / 2
      requires seen <= queue.Keys && hashQueue == queue - seen && hashQueue != map[] && Best(queue, seen)
      requires sent == Given(queue, seen, ignored) && skipped == Given(queue, seen, seen - ignored)
      modifies `hashQueue, `plan
      ensures hash in queue && hash !in seen && hashQueue == queue - (seen + {hash}) && Best(queue, seen + {hash})
      ensures Inv(State(), Taken(queue, seen + {hash}), plan) && Steady(old(plan), plan)
      ensures |Busy(plan.where)| == |Busy(old(plan).where)| + 1
      ensures send == Given(queue, seen + {hash}, ignored) && |send| <= |sent| + 1
      ensures skip == Given(queue, seen + {hash}, seen + {hash} - ignored)
      ensures forall o :: old(InOrder(o)) ==> InOrder(o)
    {
      hide Inv, InOrder, Busy, Best, Steady, Given, Taken;
      ghost var left := hashQueue;
      var priority;
      hash, priority := PopHighest(Taken(queue, seen));
      SeeNext(queue, left, seen, ignored, hash);
      send, skip := sent, skipped;
      if hash in ignored {
        skip := skip[hash := priority];
      } else {
        send := send[hash := priority];
      }
    }

    /** The selection loop of Reserve. */
    method Look(ignored: set<Hash>, count: int, space: int)
      returns (send: map<Hash, int>, skip: map<Hash, int>, ghost seen: set<Hash>)
      requires Valid() && |Busy(plan.where)| + space == blockCache.Length / 2 && space >= 0
      modifies `hashQueue, `plan
      ensures Inv(State(), Taken(old(hashQueue), seen), plan) && Steady(old(plan), plan)
      ensures forall o :: old(InOrder(o)) ==> InOrder(o)
      ensures LooksAt(old(hashQueue), seen, ignored, count, space) && hashQueue == old(hashQueue) - seen
      ensures send == Given(old(hashQueue), seen, ignored) && skip == Given(old(hashQueue), seen, seen - ignored)
      ensures |send| == 0 || |send| <= count
    {
      hide Inv, InOrder, Busy, Best, Steady, Given, Taken, LooksAt;
      ghost var queue := hashQueue;
      send, skip, seen := map[], map[], {};
      SteadyItself(plan);
      NothingSeen(queue, ignored);
      var proc := 0;
      while proc < space && |send| < count && hashQueue != map[]
        invariant Inv(State(), Taken(queue, seen), plan) && proc == |seen| <= space
        invariant |Busy(plan.where)| + space - proc == blockCache.Length / 2
        invariant seen <= queue.Keys && hashQueue == queue - seen && Best(queue, seen)
        invariant send == Given(queue, seen, ignored) && skip == Given(queue, seen, seen - ignored)
        invariant forall o :: old(InOrder(o)) ==> InOrder(o)
        invariant Steady(old(plan), plan)
        invariant |send| == 0 || |send| <= count
      {
        ghost var before := plan;
        var hash;
        send, skip, hash := LookOne(queue, seen, ignored, send, skip);
        SteadyAgain(old(plan), before, plan);
        seen, proc := seen + {hash}, proc + 1;
      }
      LookStops(queue, seen, ignored, count, space);
    }

    method ReturnSkipped(ghost loose: map<Hash, int>, ghost send: map<Hash, int>, skip: map<Hash, int>)
      requires Inv(State(), loose, plan) && AllSorted(loose, send, skip)
      modifies `hashQueue, `plan
      ensures Inv(State(), send, plan) && plan == PutBack(old(plan), skip) && Steady(old(plan), plan)
      ensures hashQueue == old(hashQueue) + skip
      ensures forall o :: old(InOrder(o)) ==> InOrder(o)
    {
      hide Inv, Ordered, AllSorted;
      ghost var s := State();
      PutBackIsSteady(s, loose, send, plan, skip);
      PutBackKeeps(s, loose, send, skip, plan);
      hashQueue := hashQueue + skip;
      plan := PutBack(plan, skip);
      assert State() == Requeue(s, skip);
    }

    ghost predicate InRange(b: Block)
      reads `blockOffset, `blockCache
    {
      blockOffset <= b.height < blockOffset + blockCache.Length
    }

    /** Merges one requested block into the cache. */
    method AcceptOne(b: Block, ghost loose: map<Hash, int>)
      requires Inv(State(), loose, plan) && b.hash in loose && InRange(b)
      modifies `hashPool, `blockPool, `plan, blockCache
      ensures Inv(State(), loose - {b.hash}, plan)
      ensures plan == Accepted(old(plan), b) && Steady(old(plan), plan)
      ensures blockPool == old(blockPool)[b.hash := b.height] && hashPool == old(hashPool) - {b.hash}
      ensures blockCache[..] == old(blockCache[..])[b.height - blockOffset := Some(b)]
      ensures old(InOrder(blockOffset)) && Honest(b, old(plan), blockOffset) ==> InOrder(blockOffset)
    {
      hide Inv, Ordered, Honest;
      ghost var s := State();
      AcceptKeeps(s, loose, b, plan);
      AcceptIsSteady(s, loose, b, plan);
      AcceptedInOrder(s, loose, b, plan);
      blockCache[b.height - blockOffset] := Some(b);
      hashPool := hashPool - {b.hash};
      blockPool := blockPool[b.hash := b.height];
      plan := Accepted(plan, b);
      assert State() == Accept(s, b);
    }

    /** Puts the hashes in hand back on the queue. */
    method ReturnLoose(loose: map<Hash, int>)
      requires Inv(State(), loose, plan)
      modifies `hashQueue, `plan
      ensures Valid() && plan == Requeued(old(plan)) && Steady(old(plan), plan) && hashQueue == old(hashQueue) + loose
      ensures forall o :: old(InOrder(o)) ==> InOrder(o)
    {
      hide Inv, Ordered;
      ghost var s := State();
      RequeueKeeps(s, loose, plan);
      MoveIsSteady(plan, InHand, Queued);
      hashQueue := hashQueue + loose;
      plan := Requeued(plan);
      assert State() == Requeue(s, loose);
    }

    /** Takes a peer's request off the pending pool. */
    method Unrequest(id: Peer) returns (hashes: map<Hash, int>)
      requires Valid() && id in pendPool
      modifies `pendPool, `plan
      ensures hashes == old(pendPool)[id].hashes && pendPool == old(pendPool) - {id}
      ensures Inv(State(), hashes, plan) && plan == Unpended(old(plan), id) && Steady(old(plan), plan)
      ensures forall o :: old(InOrder(o)) ==> InOrder(o)
    {
      hide Inv, Ordered;
      ghost var s := State();
      UnpendKeeps(s, id, plan);
      MoveIsSteady(plan, InFlight(id), InHand);
      hashes := pendPool[id].hashes;
      pendPool := pendPool - {id};
      plan := Unpended(plan, id);
      assert State() == Unpend(s, id);
    }

    /** Every wanted block has a slot in the cache. */
    ghost predicate AllFit(requested: map<Hash, int>, delivered: seq<Block>)
      reads `blockOffset, `blockCache
    {
      forall k :: 0 <= k < |delivered| && Wanted(requested, delivered, k) ==> InRange(delivered[k])
    }

    /** Merging stops in front of block n: it is wanted and without a slot, or past the end. */
    ghost predicate Stops(requested: map<Hash, int>, delivered: seq<Block>, n: nat)
      reads `blockOffset, `blockCache
    {
      && n <= |delivered|
      && (forall k :: 0 <= k < n && Wanted(requested, delivered, k) ==> InRange(delivered[k]))
      && (n < |delivered| ==> Wanted(requested, delivered, n) && !InRange(delivered[n]))
    }

    /** Every delivered block that was asked for is for the height its hash was scheduled for. */
    ghost predicate Honestly(requested: map<Hash, int>, delivered: seq<Block>, plan: Plan)
      reads `blockOffset
    {
      forall k :: 0 <= k < |delivered| && delivered[k].hash in requested ==> Honest(delivered[k], plan, blockOffset)
    }

    /** The merge loop of Deliver over the blocks of one request, stopped by a wanted
        block out of range. */
    method Merge(id: Peer, delivered: seq<Block>, requested: map<Hash, int>)
      returns (ok: bool, errs: nat, rest: map<Hash, int>, ghost n: nat)
      requires Inv(State(), requested, plan)
      modifies `hashPool, `blockPool, `plan, blockCache
      ensures Stops(requested, delivered, n) && (ok <==> n == |delivered|)
      ensures State() == Merged(old(State()), requested, delivered[..n], id)
      ensures rest == Rest(requested, delivered[..n]) && errs == Strays(requested, delivered[..n])
      ensures Inv(State(), rest, plan) && Steady(old(plan), plan)
      ensures old(InOrder(blockOffset)) && Honestly(requested, delivered, old(plan)) ==> ok && InOrder(blockOffset)
    {
      hide Inv, Ordered, Steady, Rest, Merged, Strays, Wanted;
      ghost var s, honest := State(), InOrder(blockOffset) && Honestly(requested, delivered, plan);
      ok, errs, rest, n := true, 0, requested, |delivered|;
      SteadyItself(plan);
      MergeNone(s, requested, id);
      assert delivered[..0] == [];
      for i := 0 to |delivered|
        invariant ok && n == |delivered|
        invariant Inv(State(), rest, plan) && Steady(old(plan), plan)
        invariant rest == Rest(requested, delivered[..i]) && errs == Strays(requested, delivered[..i])
        invariant State() == Merged(s, requested, delivered[..i], id)
        invariant forall k :: 0 <= k < i && Wanted(requested, delivered, k) ==> InRange(delivered[k])
        invariant honest ==> InOrder(blockOffset) && Honestly(requested, delivered, plan)
      {
        ghost var before := plan;
        var b := delivered[i].(origin := id);
        RestStep(requested, delivered, i);
        MergedNext(s, requested, delivered, id, i);
        if b.hash !in rest {
          RestStays(rest, b.hash);
          errs := errs + 1;
        } else if b.height < blockOffset || b.height - blockOffset >= blockCache.Length {
          if honest { HonestFits(b, rest, requested, delivered, i); }
          ok, n := false, i;
          break;
        } else {
          assert honest ==> Honest(b, plan, blockOffset) by {
            if honest { HonestlyOne(b, rest, requested, delivered, i); }
          }
          AcceptOne(b, rest);
          SteadyAgain(old(plan), before, plan);
          if honest { HonestlyStays(requested, delivered, before); }
          rest := rest - {b.hash};
        }
      }
      if ok { assert delivered[..|delivered|] == delivered; }
    }

    lemma HonestFits(b: Block, rest: map<Hash, int>, requested: map<Hash, int>, delivered: seq<Block>, n: nat)
      requires Inv(State(), rest, plan) && InOrder(blockOffset) && b.hash in rest
      requires Honestly(requested, delivered, plan) && n < |delivered| && rest == Rest(requested, delivered[..n])
      requires b == delivered[n].(origin := b.origin)
      ensures InRange(b)
    {
      RequestedInRange(State(), rest, b, plan);
    }

    lemma HonestlyOne(b: Block, rest: map<Hash, int>, requested: map<Hash, int>, delivered: seq<Block>, n: nat)
      requires Honestly(requested, delivered, plan) && n < |delivered| && rest == Rest(requested, delivered[..n])
      requires b.hash in rest && b == delivered[n].(origin := b.origin)
      ensures Honest(b, plan, blockOffset)
    {
    }

    lemma HonestlyStays(requested: map<Hash, int>, delivered: seq<Block>, before: Plan)
      requires Honestly(requested, delivered, before) && Steady(before, plan)
      ensures Honestly(requested, delivered, plan)
    {
    }

    /** Leaves the hashes in hand where they are. */
    ghost method Abandon(loose: map<Hash, int>)
      requires Inv(State(), loose, plan)
      modifies `plan
      ensures Valid() && Drops(old(plan), plan, loose.Keys)
    {
      AbandonKeeps(State(), loose, plan);
      plan := Abandoned(plan);
    }

    /** A request answered: taken off the pending pool, merged, the rest returned. */
    method AcceptAll(id: Peer, delivered: seq<Block>)
      returns (err: Delivery, unavailable: set<Hash>, ghost n: nat)
      requires Valid() && id in pendPool
      modifies `hashPool, `hashQueue, `pendPool, `blockPool, `plan, blockCache
      ensures unavailable == if delivered == [] then old(pendPool)[id].hashes.Keys else {}
      ensures Valid() && Stops(old(pendPool)[id].hashes, delivered, n)
      ensures Answered(old(State()), old(plan), id, delivered, err, n)
      ensures old(InOrder(blockOffset) && Honestly(pendPool[id].hashes, delivered, plan)) ==>
          err != InvalidChain && InOrder(blockOffset)
    {
      hide Inv, Ordered, Drops, Rest, Merged, Strays, Wanted;
      ghost var s, honest := State(), InOrder(blockOffset) && Honestly(pendPool[id].hashes, delivered, plan);
      var hashes := Unrequest(id);
      ghost var looked := plan;
      assert honest ==> Honestly(hashes, delivered, plan) by {
        if honest { HonestlyStays(hashes, delivered, old(plan)); }
      }
      unavailable := if delivered == [] then hashes.Keys else {};
      assert State() == Unpend(s, id);
      var ok, errs, rest;
      ok, errs, rest, n := Merge(id, delivered, hashes);
      SteadyAgain(old(plan), looked, plan);
      ghost var merged, done := State(), plan;
      if !ok {
        err := InvalidChain;
        Abandon(rest);
        DropsLast(old(plan), done, plan, rest.Keys);
      } else {
        assert delivered[..n] == delivered;
        ReturnLoose(rest);
        assert State() == Requeue(merged, rest);
        SteadyAgain(old(plan), done, plan);
        err := if errs == 0 then Delivered else if errs == |delivered| then StaleDelivery else MultipleFailures;
      }
    }

    /** What an answered request leaves: the blocks before the n-th merged in, and the rest
        of the request back in the queue, or lost when the n-th had no slot. */
    ghost predicate Answered(s: Sched, before: Plan, id: Peer, delivered: seq<Block>, err: Delivery, n: nat)
      reads this, blockCache
      requires id in s.pending && n <= |delivered|
    {
      var requested := s.pending[id].hashes;
      var merged, rest := Merged(Unpend(s, id), requested, delivered[..n], id), Rest(requested, delivered[..n]);
      if n == |delivered|
      then State() == Requeue(merged, rest) && Steady(before, plan) && err == Verdict(requested, delivered)
      else State() == merged && Drops(before, plan, rest.Keys) && err == InvalidChain
    }

    /** Accepts a peer's blocks, up to a wanted one without a slot in the cache. If there
        is one the chain is invalid, and what was not merged before it is lost: in the
        pool and neither queued nor requested. Otherwise what was not delivered is back
        in the queue, nothing is lost, and the error says how many blocks were strays.
        A block that finds its slot taken overwrites the one there. */
    method Deliver(id: Peer, delivered: seq<Block>)
      returns (err: Delivery, unavailable: set<Hash>, ghost n: nat)
      requires Valid()
      modifies `hashPool, `hashQueue, `pendPool, `blockPool, `plan, blockCache
      ensures Valid()
      ensures err == NoFetchesPending <==> id !in old(pendPool)
      ensures id !in old(pendPool) ==> State() == old(State()) && plan == old(plan) && unavailable == {}
      ensures id in old(pendPool) ==>
                && unavailable == (if delivered == [] then old(pendPool)[id].hashes.Keys else {})
                && Stops(old(pendPool)[id].hashes, delivered, n)
                && Answered(old(State()), old(plan), id, delivered, err, n)
                && (err == InvalidChain <==> !AllFit(old(pendPool)[id].hashes, delivered))
      ensures forall h :: h in hashPool || h in blockPool <==> h in old(hashPool) || h in old(blockPool)
      ensures id in old(pendPool) ==>
                (AllKept() <==>
                  && old(AllKept())
                  && NoClash(old(blockCache[..]), blockOffset, old(pendPool)[id].hashes, delivered[..n]))
      ensures id in old(pendPool) && old(InOrder(blockOffset) && Honestly(pendPool[id].hashes, delivered, plan)) ==>
          err != InvalidChain && InOrder(blockOffset)
    {
      hide Inv, Ordered, Drops, Strays, Merged, Rest, Kept, NoClash, Wanted;
      ghost var s := State();
      PoolsHold(s, map[], plan);
      if id !in pendPool {
        err, unavailable, n := NoFetchesPending, {}, 0;
      } else {
        err, unavailable, n := AcceptAll(id, delivered);
        PoolsHold(State(), map[], plan);
        DeliveryKept(s, old(plan), id, delivered, n);
        DropsKeys(old(plan), plan, if n == |delivered| then {} else Rest(s.pending[id].hashes, delivered[..n]).Keys);
      }
    }

    /** Moves the cache n slots to the front and clears the rest. */
    method Shift(n: nat)
      requires n <= blockCache.Length
      modifies blockCache
      ensures blockCache[..] == old(blockCache[..])[n..] + Nones(n)
    {
      var size := blockCache.Length;
      var k := 0;
      while k < size - n
        invariant 0 <= k <= size - n
        invariant forall i :: 0 <= i < k ==> blockCache[i] == old(blockCache[..])[i + n]
        invariant forall i :: k <= i < size ==> blockCache[i] == old(blockCache[..])[i]
      {
        blockCache[k] := blockCache[k + n];
        k := k + 1;
      }
      while k < size
        invariant size - n <= k <= size
        invariant forall i :: 0 <= i < size - n ==> blockCache[i] == old(blockCache[..])[i + n]
        invariant forall i :: size - n <= i < k ==> blockCache[i] == None
      {
        blockCache[k] := None;
        k := k + 1;
      }
    }

    /** The downloaded blocks up to the first gap, and the pool without them. */
    method Head() returns (blocks: seq<Block>, pool: map<Hash, nat>)
      ensures |blocks| <= blockCache.Length && forall i :: 0 <= i < |blocks| ==> blockCache[..][i] == Some(blocks[i])
      ensures |blocks| < blockCache.Length ==> blockCache[|blocks|] == None
      ensures pool == blockPool - TakenHashes(blockCache[..], |blocks|)
    {
      blocks, pool := [], blockPool;
      while |blocks| < blockCache.Length && blockCache[|blocks|].Some?
        invariant |blocks| <= blockCache.Length
        invariant forall i :: 0 <= i < |blocks| ==> blockCache[..][i] == Some(blocks[i])
        invariant pool == blockPool - TakenHashes(blockCache[..], |blocks|)
        decreases blockCache.Length - |blocks|
      {
        var block := blockCache[|blocks|].value;
        TakenHashesStep(blockCache[..], |blocks|);
        blocks := blocks + [block];
        pool := pool - {block.hash};
      }
    }

    /** Emits the downloaded blocks of the next heights, up to the first gap. */
    method TakeBlocks() returns (blocks: seq<Block>)
      requires Valid()
      modifies `blockPool, `blockOffset, `plan, blockCache
      ensures Valid()
      ensures blockOffset == old(blockOffset) + |blocks| && |blocks| <= blockCache.Length
      ensures forall i :: 0 <= i < |blocks| ==>
          blocks[i].height == old(blockOffset) + i && old(blockCache[..])[i] == Some(blocks[i])
      ensures |blocks| < blockCache.Length ==> old(blockCache[..])[|blocks|] == None
      ensures State() == Take(old(State()), |blocks|)
      ensures plan.sched == old(plan.sched) && plan.taken == old(plan.taken) + |blocks|
      ensures |plan.out| == |old(plan.out)| + |blocks| && old(plan.out) <= plan.out
      ensures LostOf(plan.where) == LostOf(old(plan.where)) && (AllKept() <==> old(AllKept()))
      ensures forall i :: 0 <= i < |blocks| ==> plan.out[|old(plan.out)| + i] == blocks[i].hash
      ensures old(InOrder(blockOffset)) ==>
                && InOrder(blockOffset) && plan.taken <= |plan.sched|
                && forall i :: 0 <= i < |blocks| ==> blocks[i].hash == plan.sched[old(plan.taken) + i]
    {
      hide Inv, Ordered, TakenHashes, Kept;
      ghost var s, before := State(), plan;
      var pool;
      blocks, pool := Head();
      var n := |blocks|;
      TakeAll(s, before, blocks);
      TakeLoses(s, before, n);
      Shift(n);
      blockPool := pool;
      blockOffset := blockOffset + n;
      plan := TakenPlan(s, before, n);
      assert State() == Take(s, n);
    }
  }

  // ---- Later calls ----

  datatype Call =
    | CallInsert(hashes: seq<Hash>, fifo: bool)
    | CallReserve(peer: Peer, ignored: set<Hash>, count: int, now: int)
    | CallCancel(peer: Peer)
    | CallExpire(now: int, timeout: int)
    | CallDeliver(peer: Peer, delivered: seq<Block>)
    | CallTake
    | CallPrepare(offset: nat)

  /** The hashes whose block was overwritten. */
  ghost function GoneOf(s: Sched): set<Hash> {
    set h | h in s.blocks && !Cached(s.cache, h)
  }

  lemma {:induction false} KeptIsNoneGone(s: Sched, plan: Plan)
    requires Inv(s, map[], plan)
    ensures Kept(s.cache, s.blocks, s.offset) <==> GoneOf(s) == {}
  {
    hide Priorities, Busy, Balanced, Placed;
    assert forall h :: h in s.blocks ==> (InSlot(s.cache, s.blocks[h], s.offset, h) <==> Cached(s.cache, h));
    assert forall h :: h in GoneOf(s) <==> h in s.blocks && !Cached(s.cache, h);
  }

  lemma {:induction false} CachedAfter(cache: seq<Option<Block>>, offset: nat, requested: map<Hash, int>,
          bs: seq<Block>, id: Peer, h: Hash)
    ensures Cached(Filled(cache, offset, requested, bs, id), h) ==> Cached(cache, h) || h in requested
  {
    if bs != [] { CachedAfter(cache, offset, requested, bs[..|bs| - 1], id, h); }
  }

  lemma {:induction false} MergedGone(s: Sched, plan: Plan, id: Peer, bs: seq<Block>)
    requires Inv(s, map[], plan) && id in s.pending
    ensures GoneOf(s) <= GoneOf(Merged(Unpend(s, id), s.pending[id].hashes, bs, id))
  {
    hide Priorities, Slotted, Busy, Balanced, Cached;
    var requested := s.pending[id].hashes;
    forall h | h in GoneOf(s) ensures h in GoneOf(Merged(Unpend(s, id), requested, bs, id)) {
      assert Spot(s, map[], plan.where, h);
      CachedAfter(s.cache, s.offset, requested, bs, id, h);
      StoredExactly(s.blocks, requested, bs, h);
    }
  }

  lemma {:induction false} TakenGone(s: Sched, n: nat)
    requires n <= |s.cache| && forall i :: 0 <= i < n ==> s.cache[i].Some?
    ensures GoneOf(s) <= GoneOf(Take(s, n))
  {
    forall h | Cached(Take(s, n).cache, h) ensures Cached(s.cache, h) {
      var i :| 0 <= i < |s.cache| && Take(s, n).cache[i].Some? && Take(s, n).cache[i].value.hash == h;
      assert Take(s, n).cache[i] == s.cache[i + n];
    }
  }

  lemma {:induction false} QueuedAreSafe(s: Sched, plan: Plan)
    requires Inv(s, map[], plan)
    ensures forall h :: h in s.queue ==> h !in LostOf(plan.where) && h !in GoneOf(s)
  {
    hide Priorities, Busy, Balanced, Slotted;
    forall h | h in s.queue ensures h !in LostOf(plan.where) && h !in GoneOf(s) {
      assert Spot(s, map[], plan.where, h);
    }
  }

  /** One call; refused are only the insertion of a downloaded hash, the cancelling of
      what is not pending and an offset that moves over cached blocks. */
  method Do(q: Queue, call: Call) returns (ok: bool, asked: Option<Request>, blocks: seq<Block>)
    requires q.Valid()
    modifies q, q.blockCache
    ensures q.Valid() && q.blockCache == old(q.blockCache)
    ensures LostOf(old(q.plan.where)) <= LostOf(q.plan.where) && GoneOf(old(q.State())) <= GoneOf(q.State())
    ensures ok <==> match call
                    case CallInsert(hashes, _) => forall h :: h in hashes ==> h !in old(q.blockPool)
                    case CallCancel(peer) => peer in old(q.pendPool)
                    case CallPrepare(offset) =>
                      offset <= old(q.blockOffset) || old(q.blockCache[..]) == Nones(q.blockCache.Length)
                    case _ => true
    ensures asked.Some? ==> forall h :: h in asked.value.hashes ==>
              h !in LostOf(old(q.plan.where)) && h !in GoneOf(old(q.State()))
    ensures forall b :: b in blocks ==> b.hash !in GoneOf(old(q.State()))
  {
    hide Inv, Ordered, Merged, LostOf, Rest, NoClash, Stored, Filled;
    ok, asked, blocks := true, None, [];
    ghost var s, plan := q.State(), q.plan;
    match call {
      case CallInsert(hashes, fifo) =>
        ok := forall h :: h in hashes ==> h !in q.blockPool;
        if ok { var _ := q.Insert(hashes, fifo); }
      case CallReserve(peer, ignored, count, now) =>
        QueuedAreSafe(s, plan);
        ghost var seen;
        asked, seen := q.Reserve(peer, ignored, count, now);
      case CallCancel(peer) =>
        ok := peer in q.pendPool;
        if ok { q.Cancel(peer); }
      case CallExpire(now, timeout) =>
        var _ := q.Expire(now, timeout);
      case CallDeliver(peer, delivered) =>
        var _, _, n := q.Deliver(peer, delivered);
        if peer in s.pending { MergedGone(s, plan, peer, delivered[..n]); }
      case CallTake =>
        blocks := q.TakeBlocks();
        TakenGone(s, |blocks|);
      case CallPrepare(offset) =>
        ok := offset <= q.blockOffset || q.blockCache[..] == Nones(q.blockCache.Length);
        if ok { q.Prepare(offset); }
    }
  }

  /** Over every sequence of such calls without a reset, no request asks for a lost or
      an overwritten hash, no overwritten one is taken, and all of them stay so. */
  method Drive(q: Queue, calls: seq<Call>) returns (asked: seq<Request>, blocks: seq<Block>)
    requires q.Valid()
    modifies q, q.blockCache
    ensures q.Valid() && forall h :: h in LostOf(old(q.plan.where)) ==> Nowhere(q.State(), h)
    ensures forall r, h :: r in asked && h in r.hashes ==>
              h !in LostOf(old(q.plan.where)) && h !in GoneOf(old(q.State()))
    ensures forall b :: b in blocks ==> b.hash !in GoneOf(old(q.State()))
    ensures GoneOf(old(q.State())) <= GoneOf(q.State())
  {
    hide Inv, LostOf, GoneOf;
    asked, blocks := [], [];
    for n := 0 to |calls|
      invariant q.Valid() && q.blockCache == old(q.blockCache)
      invariant LostOf(old(q.plan.where)) <= LostOf(q.plan.where) && GoneOf(old(q.State())) <= GoneOf(q.State())
      invariant forall r, h :: r in asked && h in r.hashes ==>
                  h !in LostOf(old(q.plan.where)) && h !in GoneOf(old(q.State()))
      invariant forall b :: b in blocks ==> b.hash !in GoneOf(old(q.State()))
    {
      var ok, request, taken := Do(q, calls[n]);
      asked, blocks := asked + (if request.Some? then [request.value] else []), blocks + taken;
    }
    forall h | h in LostOf(old(q.plan.where)) ensures Nowhere(q.State(), h) {
      OnePlace(q.State(), q.plan, h, "", "");
    }
  }

  // ---- Instances ----

  lemma {:induction false} BothSeen(queue: map<Hash, int>, seen: set<Hash>, a: Hash, b: Hash, room: int)
    requires queue.Keys == {a, b} && a != b && LooksAt(queue, seen, {}, 2, room) && room >= 2
    ensures seen == {a, b} && Given(queue, seen, {}) == queue && queue - seen == map[] && seen - {} == seen
  {
    assert |seen| >= 2 by { assert seen - {} == seen; }
    if a !in seen { SubsetSize(seen, {b}); }
    if b !in seen { SubsetSize(seen, {a}); }
  }

  lemma {:induction false} NothingBusy(s: Sched, plan: Plan)
    requires Inv(s, map[], plan) && s.pending == map[] && s.blocks == map[]
    ensures |Busy(plan.where)| == 0
  {
    BusySplit(s, plan);
    assert FlightOf(plan.where, {}) == {};
  }

  /** A new queue that has asked a peer for two hashes. */
  method AskedFor(a: Hash, b: Hash, peer: Peer) returns (q: Queue)
    requires a != b
    ensures fresh(q) && fresh(q.blockCache) && q.Valid() && q.InOrder(0)
    ensures q.pendPool.Keys == {peer} && q.hashQueue == map[] && q.pendPool[peer].hashes.Keys == {a, b}
    ensures q.hashPool.Keys == {a, b}
    ensures q.blockPool == map[] && q.blockOffset == 0 && q.blockCache[..] == Nones(BLOCK_CACHE_LIMIT)
  {
    hide Inv, Ordered, LooksAt, Given, Steady, Busy, Pushed, NewOnes, LostOf;
    q := new Queue();
    ghost var queue := Schedule2(q, a, b);
    NothingBusy(q.State(), q.plan);
    var request, seen := q.Reserve(peer, {}, 2, 0);
    BothSeen(queue, seen, a, b, BLOCK_CACHE_LIMIT / 2);
  }

  method Schedule2(q: Queue, a: Hash, b: Hash) returns (ghost queue: map<Hash, int>)
    requires q.Valid() && a != b && q.State() == Sched(map[], map[], 0, map[], map[], Nones(BLOCK_CACHE_LIMIT), 0)
    requires q.plan == Plan(map[], map[], [], 0, []) && q.InOrder(0)
    modifies q`hashPool, q`hashQueue, q`hashCounter, q`plan
    ensures q.Valid() && q.InOrder(0) && q.hashQueue == queue && queue.Keys == {a, b} && q.hashPool.Keys == {a, b}
  {
    hide Inv, Ordered, Steady, Busy, NewOnes, LostOf;
    AllNew([a, b]);
    var inserts := q.Insert([a, b], true);
    queue := q.hashQueue;
  }

  /** Two hashes are asked for, and the first comes with a height beyond the cache. */
  method TooFar(a: Hash, b: Hash, peer: Peer) returns (q: Queue, err: Delivery)
    requires a != b
    ensures fresh(q) && fresh(q.blockCache) && q.Valid() && err == InvalidChain
    ensures q.hashPool.Keys == {a, b} && q.hashQueue == map[] && q.pendPool == map[]
  {
    hide Inv, Ordered, Drops, Merged, Rest, Verdict, NoClash, Kept;
    q := AskedFor(a, b, peer);
    ghost var s := q.State();
    var late := Block(a, BLOCK_CACHE_LIMIT, peer);
    assert Wanted(s.pending[peer].hashes, [late], 0);
    ghost var n;
    var unavailable;
    err, unavailable, n := q.Deliver(peer, [late]);
    assert n == 0 && [late][..0] == [];
    MergeNone(Unpend(s, peer), s.pending[peer].hashes, peer);
    assert q.State() == Unpend(s, peer);
  }

  /** Both are lost: they cannot be scheduled again, and nothing is left to ask for. */
  method LostRequest(a: Hash, b: Hash, peer: Peer) returns (q: Queue, again: seq<Hash>, request: Option<Request>)
    requires a != b
    ensures fresh(q) && q.Valid() && again == [] && request == None
    ensures Nowhere(q.State(), a) && Nowhere(q.State(), b)
  {
    hide Inv, Ordered, Drops, Best, Given, NewOnes, LostOf, Busy;
    var err;
    q, err := TooFar(a, b, peer);
    NoneNew([a, b], q.hashPool);
    again := q.Insert([a, b], true);
    assert q.hashQueue == map[];
    ghost var seen;
    request, seen := q.Reserve(peer, {}, 2, 0);
    assert seen == {};
  }

  lemma {:induction false} OneMerged(s: Sched, requested: map<Hash, int>, b: Block, id: Peer)
    requires b.hash in requested && s.offset <= b.height < s.offset + |s.cache|
    ensures Wanted(requested, [b], 0) && Merged(s, requested, [b], id) == Accept(s, b.(origin := id))
  {
    hide Merged;
    assert [b][..1] == [b] && [b][..0] == [];
    MergedNext(s, requested, [b], id, 0);
    MergeNone(s, requested, id);
  }

  lemma {:induction false} TwoMerged(s: Sched, requested: map<Hash, int>, b: Block, c: Block, id: Peer)
    requires b.hash in requested && c.hash in requested && b.hash != c.hash
    requires s.offset <= b.height < s.offset + |s.cache| && s.offset <= c.height < s.offset + |s.cache|
    ensures Wanted(requested, [b, c], 0) && Wanted(requested, [b, c], 1)
    ensures Merged(s, requested, [b, c], id) == Accept(Accept(s, b.(origin := id)), c.(origin := id))
  {
    hide Merged;
    var both := [b, c];
    assert both[..2] == both && both[..1] == [b];
    OneMerged(s, requested, b, id);
    MergedNext(s, requested, both, id, 1);
  }

  /** One of two hashes is downloaded for height 3. */
  method CachedAhead(a: Hash, b: Hash, peer: Peer) returns (q: Queue)
    requires a != b
    ensures fresh(q) && fresh(q.blockCache) && q.Valid() && q.blockOffset == 0
    ensures q.blockPool == map[a := 3] && a !in q.hashPool && q.blockCache[..] != Nones(q.blockCache.Length)
  {
    hide Inv, Ordered, Drops, Merged, Rest, Verdict, NoClash, Wanted, Kept;
    q := AskedFor(a, b, peer);
    ghost var s := q.State();
    var ahead := Block(a, 3, peer);
    OneMerged(Unpend(s, peer), s.pending[peer].hashes, ahead, peer);
    var err, unavailable, n := q.Deliver(peer, [ahead]);
    assert n == 1 && [ahead][..1] == [ahead];
    assert q.blockCache[..][3] == Some(ahead);
  }

  /** Scheduled again before it was taken, a downloaded hash is in two places. */
  method TwicePlaced(a: Hash, b: Hash, peer: Peer) returns (q: Queue)
    requires a != b
    ensures fresh(q) && a in q.hashQueue && a in q.blockPool && forall plan :: !Inv(q.State(), map[], plan)
  {
    hide Inv;
    q := CachedAhead(a, b, peer);
    var inserts := q.Insert([a], true);
    assert a in [a];
  }

  /** The offset moves over a cached block, which then is in the slot of another height. */
  method MovedOver(a: Hash, b: Hash, peer: Peer) returns (q: Queue)
    requires a != b
    ensures fresh(q) && q.blockOffset == 2 && q.blockPool == map[a := 3] && !q.Valid()
  {
    hide Inv;
    q := CachedAhead(a, b, peer);
    q.Prepare(2);
  }

  /** Two blocks of one request claim one height. */
  method OneHeight(a: Hash, b: Hash, peer: Peer) returns (q: Queue, err: Delivery)
    requires a != b
    ensures fresh(q) && fresh(q.blockCache) && q.Valid() && err == Delivered
    ensures q.blockPool == map[a := 0, b := 0] && q.blockOffset == 0 && a !in q.hashPool
    ensures q.blockCache[..] == Nones(BLOCK_CACHE_LIMIT)[0 := Some(Block(b, 0, peer))]
  {
    hide Inv, Ordered, Drops, Merged, Rest, Verdict, NoClash, Wanted, Kept;
    q := AskedFor(a, b, peer);
    ghost var s := q.State();
    var both := [Block(a, 0, peer), Block(b, 0, peer)];
    TwoMerged(Unpend(s, peer), s.pending[peer].hashes, both[0], both[1], peer);
    ghost var n;
    var unavailable;
    err, unavailable, n := q.Deliver(peer, both);
    assert n == 2 && both[..2] == both;
    VerdictExactly(s.pending[peer].hashes, both);
  }

  /** Both count as delivered, the second takes the slot of the first, and only the
      second is taken. */
  method Overwritten(a: Hash, b: Hash, peer: Peer) returns (q: Queue, err: Delivery, blocks: seq<Block>)
    requires a != b
    ensures fresh(q) && q.Valid() && err == Delivered && blocks == [Block(b, 0, peer)]
    ensures a in q.blockPool && a !in q.hashPool && !Cached(q.blockCache[..], a) && !q.AllKept()
  {
    hide Inv, Ordered;
    q, err := OneHeight(a, b, peer);
    ghost var cache := q.blockCache[..];
    assert !q.AllKept() by { assert !InSlot(cache, q.blockPool[a], 0, a); }
    assert cache[0] == Some(Block(b, 0, peer)) && cache[1] == None;
    blocks := q.TakeBlocks();
    assert |blocks| == 1 && TakenHashes(cache, 1) == {b};
  }
}
