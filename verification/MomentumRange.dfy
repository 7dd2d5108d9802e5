/** Finding the last momentum before a time: an estimate from timestamps that
    brackets the answer, then a binary search. Timestamps are whole seconds and
    strictly increasing; the query is in nanoseconds. */
module MomentumRange {
  import opened Bytes

  datatype Momentum = Momentum(height: nat, timestamp: int)

  const NANO := 1_000_000_000

  predicate IsChain(chain: seq<Momentum>) {
    && chain != []
    && (forall i :: 0 <= i < |chain| ==> chain[i].height == i + 1)
    && (forall i, j :: 0 <= i < j < |chain| ==> chain[i].timestamp < chain[j].timestamp)
  }

  function ByHeight(chain: seq<Momentum>, h: nat): Option<Momentum> {
    if 1 <= h <= |chain| then Some(chain[h - 1]) else None
  }

  predicate Before(m: Momentum, t: int) { m.timestamp * NANO < t }

  /** One second or more per height. */
  lemma {:induction false} TimestampsSpread(chain: seq<Momentum>, i: nat, j: nat)
    requires IsChain(chain) && i <= j < |chain|
    ensures chain[i].timestamp + (j - i) <= chain[j].timestamp
  {
    if i < j { TimestampsSpread(chain, i, j - 1); }
  }

  // ---- The estimate loop ----

  /** The boundaries found so far, by height, and the height to look at next. */
  datatype Probe = Probe(low: Option<nat>, high: Option<nat>, estimate: nat)

  predicate Done(p: Probe) { p.low.Some? && p.high.Some? }

  function First(chain: seq<Momentum>, t: int): Probe
    requires IsChain(chain)
  {
    var gap := chain[|chain| - 1].timestamp - t / NANO;
    Probe(None, None, if |chain| > gap then |chain| - gap else 1)
  }

  /** One turn of the loop; a boundary it cannot find below is genesis. */
  function Turn(chain: seq<Momentum>, t: int, p: Probe): Probe
    requires IsChain(chain) && 1 <= p.estimate <= |chain|
  {
    var block := chain[p.estimate - 1];
    if !Before(block, t) then
      var gap := if block.timestamp - t / NANO <= 0 then 1 else block.timestamp - t / NANO;
      if block.height <= gap then Probe(Some(1), Some(block.height), p.estimate)
      else Probe(p.low, Some(block.height), block.height - gap)
    else
      var estimate := block.height + (t / NANO - block.timestamp);
      Probe(Some(block.height), if estimate > |chain| then Some(|chain|) else p.high, estimate)
  }

  predicate InRange(chain: seq<Momentum>, t: int)
    requires IsChain(chain)
  {
    Before(chain[0], t) && !Before(chain[|chain| - 1], t)
  }

  /** The boundaries are momentums on either side of the query. */
  predicate Brackets(chain: seq<Momentum>, t: int, p: Probe)
    requires IsChain(chain)
  {
    && Done(p) && 1 <= p.low.value <= |chain| && 1 <= p.high.value <= |chain|
    && Before(chain[p.low.value - 1], t) && !Before(chain[p.high.value - 1], t)
  }

  lemma {:induction false} FirstInRange(chain: seq<Momentum>, t: int)
    requires IsChain(chain) && InRange(chain, t)
    ensures var e := First(chain, t).estimate; 1 <= e <= |chain| && chain[e - 1].timestamp <= t / NANO
  {
    var gap := chain[|chain| - 1].timestamp - t / NANO;
    if |chain| > gap { TimestampsSpread(chain, |chain| - 1 - gap, |chain| - 1); }
  }

  /** Where the first turn leads when it finds a momentum before the query. */
  function Second(chain: seq<Momentum>, t: int): (e: nat)
    requires IsChain(chain) && InRange(chain, t)
    ensures e >= 1
  {
    FirstInRange(chain, t);
    var e := First(chain, t).estimate;
    e + (t / NANO - chain[e - 1].timestamp)
  }

  /** A query inside a second that the second estimate hits exactly: that momentum
      is before the query and its own estimate is itself. */
  predicate Hangs(chain: seq<Momentum>, t: int)
    requires IsChain(chain) && InRange(chain, t)
  {
    var e := Second(chain, t);
    t % NANO != 0 && e <= |chain| && chain[e - 1].timestamp == t / NANO
  }

  /** The loop: at most two momentums are looked at before both boundaries are known. */
  lemma {:induction false} TwoTurnsBracket(chain: seq<Momentum>, t: int)
    requires IsChain(chain) && InRange(chain, t) && !Hangs(chain, t)
    ensures var p := First(chain, t);
            && 1 <= p.estimate <= |chain|
            && var q := Turn(chain, t, p);
               if Done(q) then Brackets(chain, t, q)
               else 1 <= q.estimate <= |chain| && Brackets(chain, t, Turn(chain, t, q))
  {
    FirstInRange(chain, t);
    var p := First(chain, t);
    var q := Turn(chain, t, p);
    if Before(chain[p.estimate - 1], t) {
      if q.estimate <= |chain| { TimestampsSpread(chain, p.estimate - 1, q.estimate - 1); }
    } else {
      assert chain[p.estimate - 1].timestamp == t / NANO;
      assert p.estimate > 1;
      TimestampsSpread(chain, p.estimate - 2, p.estimate - 1);
    }
  }

  /** The loop after k turns; it stops once both boundaries are known. */
  function Turns(chain: seq<Momentum>, t: int, k: nat): Probe
    requires IsChain(chain)
  {
    if k == 0 then First(chain, t)
    else
      var p := Turns(chain, t, k - 1);
      if Done(p) || !(1 <= p.estimate <= |chain|) then p else Turn(chain, t, p)
  }

  lemma {:induction false} TurnsBracket(chain: seq<Momentum>, t: int, k: nat)
    requires IsChain(chain) && InRange(chain, t) && !Hangs(chain, t) && k <= 2
    ensures var p := Turns(chain, t, k);
            && (if Done(p) then Brackets(chain, t, p) else k < 2 && 1 <= p.estimate <= |chain|)
  {
    TwoTurnsBracket(chain, t);
    assert Turns(chain, t, 1) == Turn(chain, t, First(chain, t));
  }

  lemma {:induction false} HangingNeverEnds(chain: seq<Momentum>, t: int, k: nat)
    requires IsChain(chain) && InRange(chain, t) && Hangs(chain, t)
    ensures var p := Turns(chain, t, k);
            && p.high == None && (if k == 0 then p == First(chain, t) else p.estimate == Second(chain, t))
  {
    FirstInRange(chain, t);
    if k > 0 { HangingNeverEnds(chain, t, k - 1); }
  }

  /** The loop ends, within two turns, exactly on the queries that do not hang:
      every whole second, and any other unless some momentum's second is hit. */
  lemma {:induction false} EndsExactly(chain: seq<Momentum>, t: int)
    requires IsChain(chain) && InRange(chain, t)
    ensures Done(Turns(chain, t, 2)) <==> !Hangs(chain, t)
    ensures (exists k :: Done(Turns(chain, t, k))) <==> !Hangs(chain, t)
    ensures t % NANO == 0 ==> !Hangs(chain, t)
  {
    if Hangs(chain, t) {
      forall k ensures !Done(Turns(chain, t, k)) { HangingNeverEnds(chain, t, k); }
    } else {
      TwoTurnsBracket(chain, t);
      assert Turns(chain, t, 1) == Turn(chain, t, Turns(chain, t, 0));
      assert Done(Turns(chain, t, 2));
    }
  }

  /** A query half a second past the fifth of ten momentums never gets an answer. */
  lemma HangingQueryExists()
    ensures var chain := seq(10, i requires 0 <= i < 10 => Momentum(i + 1, i + 1));
            IsChain(chain) && InRange(chain, 5_500_000_000) && Hangs(chain, 5_500_000_000)
  {
  }

  // ---- The search ----

  /** `sort.Search` over the heights between the boundaries, remembering what it looked at. */
  method BinarySearchBeforeTime(chain: seq<Momentum>, start: Momentum, end: Momentum, t: int)
    returns (r: Option<Momentum>)
    requires IsChain(chain) && ByHeight(chain, start.height) == Some(start) && ByHeight(chain, end.height) == Some(end)
    requires Before(start, t) && !Before(end, t)
    ensures r.Some? && 1 <= r.value.height < |chain| && r == ByHeight(chain, r.value.height)
    ensures Before(r.value, t) && !Before(chain[r.value.height], t)
  {
    assert start.height < end.height;
    var n := end.height - start.height + 1;
    var blockMap: map<nat, Momentum> := map[];
    var i, j := 0, n;
    while i < j
      invariant 0 <= i <= j <= n
      invariant forall x :: x in blockMap ==> start.height + x <= |chain| && blockMap[x] == chain[start.height + x - 1]
      invariant i > 0 ==> Before(chain[start.height + i - 2], t)
      invariant j < n ==> !Before(chain[start.height + j - 1], t)
    {
      var h := (i + j) / 2;
      blockMap := blockMap[h := chain[start.height + h - 1]];
      if Before(blockMap[h], t) {
        i := h + 1;
      } else {
        j := h;
      }
    }
    assert 0 < i < n;
    if i - 1 in blockMap {
      return Some(blockMap[i - 1]);
    }
    r := ByHeight(chain, start.height + i - 1);
  }

  /** The body of the estimate loop. */
  method Look(chain: seq<Momentum>, t: int, low: Option<nat>, high: Option<nat>, estimate: nat)
    returns (lowBoundary: Option<nat>, highBoundary: Option<nat>, estimateHeight: nat)
    requires IsChain(chain) && 1 <= estimate <= |chain|
    ensures Probe(lowBoundary, highBoundary, estimateHeight) == Turn(chain, t, Probe(low, high, estimate))
  {
    var genesis, frontier, timeSec := chain[0], chain[|chain| - 1], t / NANO;
    lowBoundary, highBoundary, estimateHeight := low, high, estimate;
    var block := chain[estimate - 1];
    if !Before(block, t) {
      highBoundary := Some(block.height);
      var behind := if block.timestamp - timeSec <= 0 then 1 else block.timestamp - timeSec;
      if block.height <= behind {
        lowBoundary := Some(genesis.height);
      } else {
        estimateHeight := block.height - behind;
      }
    } else {
      lowBoundary := Some(block.height);
      estimateHeight := block.height + (timeSec - block.timestamp);
      if estimateHeight > frontier.height {
        highBoundary := Some(frontier.height);
      }
    }
  }

  /** The estimate loop: boundaries on either side of the query after at most two turns. */
  method Estimate(chain: seq<Momentum>, t: int) returns (low: Momentum, high: Momentum)
    requires IsChain(chain) && InRange(chain, t) && !Hangs(chain, t)
    ensures ByHeight(chain, low.height) == Some(low) && ByHeight(chain, high.height) == Some(high)
    ensures Before(low, t) && !Before(high, t)
  {
    hide Hangs, InRange, Turn;
    var frontier := chain[|chain| - 1];
    TurnsBracket(chain, t, 0);
    var timeSec := t / NANO;
    var gap := frontier.timestamp - timeSec;
    var estimateHeight: nat := if frontier.height > gap then frontier.height - gap else 1;
    var lowBoundary, highBoundary: Option<nat> := None, None;
    ghost var turns := 0;
    while lowBoundary == None || highBoundary == None
      invariant turns <= 2 && Probe(lowBoundary, highBoundary, estimateHeight) == Turns(chain, t, turns)
      decreases 2 - turns
    {
      TurnsBracket(chain, t, turns);
      lowBoundary, highBoundary, estimateHeight := Look(chain, t, lowBoundary, highBoundary, estimateHeight);
      turns := turns + 1;
    }
    TurnsBracket(chain, t, turns);
    low, high := chain[lowBoundary.value - 1], chain[highBoundary.value - 1];
  }

  /** Exactly the last momentum strictly before the query, or nil when even genesis is not. */
  method GetMomentumBeforeTime(chain: seq<Momentum>, t: int) returns (r: Option<Momentum>)
    requires IsChain(chain)
    requires InRange(chain, t) ==> !Hangs(chain, t)
    ensures r == None <==> !Before(chain[0], t)
    ensures r.Some? ==>
              && 1 <= r.value.height <= |chain| && r == ByHeight(chain, r.value.height) && Before(r.value, t)
              && (r.value.height < |chain| ==> !Before(chain[r.value.height], t))
  {
    hide Hangs;
    var genesis, frontier := chain[0], chain[|chain| - 1];
    if !Before(genesis, t) {
      return None;
    }
    if Before(frontier, t) {
      return Some(frontier);
    }
    var low, high := Estimate(chain, t);
    if high.height == low.height + 1 {
      return Some(low);
    }
    r := BinarySearchBeforeTime(chain, low, high, t);
  }
}
