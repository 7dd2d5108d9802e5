/** Momentums in time: the last one before a time, and the start, head and content of
    each election period. A momentum stands for its own hash: it holds what the hash
    commits to, its predecessor included. */
module ChainTicker {
  import opened Bytes
  import Range = MomentumRange

  datatype Momentum = Genesis(timestamp: int) | Next(prev: Momentum, timestamp: int, producer: Bytes)

  predicate IsChain(m: Momentum) {
    m.Next? ==> m.prev.timestamp < m.timestamp && IsChain(m.prev)
  }

  function Root(m: Momentum): Momentum {
    if m.Genesis? then m else Root(m.prev)
  }

  function Height(m: Momentum): nat {
    if m.Genesis? then 1 else Height(m.prev) + 1
  }

  /** The last momentum strictly before a time on the chain that ends in m. */
  function LastBefore(m: Momentum, t: int): Option<Momentum> {
    if m.timestamp < t then Some(m)
    else if m.Genesis? then None
    else LastBefore(m.prev, t)
  }

  lemma {:induction false} RootIsFirst(m: Momentum)
    requires IsChain(m)
    ensures Root(m).Genesis? && Root(m).timestamp <= m.timestamp
  {
    if m.Next? { RootIsFirst(m.prev); }
  }

  lemma {:induction false} LastBeforeExists(m: Momentum, t: int)
    requires IsChain(m) && Root(m).timestamp < t
    ensures LastBefore(m, t).Some?
    ensures var e := LastBefore(m, t).value;
        IsChain(e) && Root(e) == Root(m) && e.timestamp < t && Height(e) <= Height(m)
    ensures m.timestamp < t ==> LastBefore(m, t).value == m
  {
    if m.timestamp >= t && m.Next? { LastBeforeExists(m.prev, t); }
  }

  /** Going back in two steps or in one. */
  lemma {:induction false} LastBeforeNests(m: Momentum, t: int, u: int)
    requires IsChain(m) && u <= t && Root(m).timestamp < t
    ensures LastBefore(m, t).Some? && LastBefore(LastBefore(m, t).value, u) == LastBefore(m, u)
  {
    LastBeforeExists(m, t);
    if m.timestamp >= t && m.Next? { LastBeforeNests(m.prev, t, u); }
  }

  /** The chain as the list that the search by time works on. */
  function Listed(m: Momentum): (ms: seq<Range.Momentum>)
    ensures |ms| == Height(m) && ms[|ms| - 1] == Range.Momentum(Height(m), m.timestamp)
  {
    (if m.Genesis? then [] else Listed(m.prev)) + [Range.Momentum(Height(m), m.timestamp)]
  }

  lemma {:induction false} ListedIsChain(m: Momentum)
    requires IsChain(m)
    ensures Range.IsChain(Listed(m)) && Listed(m)[0] == Range.Momentum(1, Root(m).timestamp)
  {
    if m.Next? { ListedIsChain(m.prev); }
  }

  /** The momentum that search finds, for a whole second, is the one meant here. */
  lemma {:induction false} SearchFinds(m: Momentum, t: int, r: Option<Range.Momentum>)
    requires IsChain(m)
    requires r == None <==> !Range.Before(Listed(m)[0], t * Range.NANO)
    requires r.Some? ==>
               && 1 <= r.value.height <= Height(m) && r.value == Listed(m)[r.value.height - 1]
               && Range.Before(r.value, t * Range.NANO)
               && (r.value.height < Height(m) ==> !Range.Before(Listed(m)[r.value.height], t * Range.NANO))
    ensures r == match LastBefore(m, t)
                 case None => None
                 case Some(e) => Some(Range.Momentum(Height(e), e.timestamp))
  {
    hide Range.IsChain;
    ListedIsChain(m);
    if m.timestamp < t {
      if r.Some? && r.value.height < Height(m) { Range.TimestampsSpread(Listed(m), r.value.height, Height(m) - 1); }
    } else if m.Next? {
      var before := Listed(m.prev);
      assert Listed(m) == before + [Range.Momentum(Height(m), m.timestamp)];
      SearchFinds(m.prev, t, r);
    }
  }

  // ---- Ticks ----

  /** Period length in seconds and number of periods in an epoch; both start at genesis. */
  datatype Ticker = Ticker(interval: nat, multiplier: nat)

  ghost predicate Runs(tk: Ticker, m: Momentum) {
    tk.interval > 0 && tk.multiplier > 0 && IsChain(m)
  }

  function Start(tk: Ticker, m: Momentum, tick: nat): int { Root(m).timestamp + tk.interval * tick }

  function End(tk: Ticker, m: Momentum, tick: nat): int { Root(m).timestamp + tk.interval * (tick + 1) }

  predicate HasStarted(tk: Ticker, m: Momentum, tick: nat) { m.timestamp >= Start(tk, m, tick) }

  predicate IsFinished(tk: Ticker, m: Momentum, tick: nat) { m.timestamp >= End(tk, m, tick) }

  lemma EndIsAfterRoot(tk: Ticker, m: Momentum, tick: nat)
    requires Runs(tk, m)
    ensures Root(m).timestamp < End(tk, m, tick)
  {
    assert tk.interval * (tick + 1) >= tk.interval * 1;
  }

  /** The head of a period: the last momentum before its end. */
  function EndBlock(tk: Ticker, m: Momentum, tick: nat): (e: Momentum)
    requires Runs(tk, m)
    ensures IsChain(e) && Root(e) == Root(m) && Some(e) == LastBefore(m, End(tk, m, tick)) && Height(e) <= Height(m)
  {
    EndIsAfterRoot(tk, m, tick);
    LastBeforeExists(m, End(tk, m, tick));
    LastBefore(m, End(tk, m, tick)).value
  }

  /** The momentum a period starts from, which is not part of it. */
  function StartBlock(tk: Ticker, m: Momentum, tick: nat): (s: Momentum)
    requires Runs(tk, m)
    ensures IsChain(s) && Root(s) == Root(m)
  {
    RootIsFirst(m);
    RootOfRoot(m);
    if tick == 0 then Root(m) else EndBlock(tk, m, tick - 1)
  }

  lemma {:induction false} RootOfRoot(m: Momentum)
    ensures Root(Root(m)) == Root(m) && IsChain(Root(m)) && Height(Root(m)) == 1
  {
    if m.Next? { RootOfRoot(m.prev); }
  }

  /** Heads only depend on any later head. */
  lemma {:induction false} EndBlockNests(tk: Ticker, m: Momentum, i: nat, j: nat)
    requires Runs(tk, m) && i <= j
    ensures EndBlock(tk, EndBlock(tk, m, j), i) == EndBlock(tk, m, i)
  {
    EndIsAfterRoot(tk, m, j);
    assert tk.interval * (i + 1) <= tk.interval * (j + 1);
    LastBeforeNests(m, End(tk, m, j), End(tk, m, i));
  }

  /** Momentums after `from` up to m. */
  function Between(from: Momentum, m: Momentum): seq<Momentum> {
    if m == from || m.Genesis? then [] else Between(from, m.prev) + [m]
  }

  predicate Ancestor(a: Momentum, m: Momentum) {
    m == a || (m.Next? && Ancestor(a, m.prev))
  }

  lemma {:induction false} LastBeforeIsAncestor(m: Momentum, t: int)
    ensures LastBefore(m, t).Some? ==> Ancestor(LastBefore(m, t).value, m)
    ensures Ancestor(Root(m), m)
  {
    if m.Next? { LastBeforeIsAncestor(m.prev, t); }
  }

  lemma {:induction false} BetweenSpans(from: Momentum, m: Momentum)
    requires Ancestor(from, m)
    ensures Height(from) <= Height(m) && |Between(from, m)| == Height(m) - Height(from)
    ensures if m == from then Between(from, m) == []
            else
              && Between(from, m) != [] && Between(from, m)[|Between(from, m)| - 1] == m
              && Between(from, m)[0].Next? && Between(from, m)[0].prev == from
  {
    if m != from { BetweenSpans(from, m.prev); }
  }

  /** `chainTicker.GetContent`: the momentums of a period; genesis is in none. */
  function Content(tk: Ticker, m: Momentum, tick: nat): seq<Momentum>
    requires Runs(tk, m)
  {
    if EndBlock(tk, m, tick).timestamp < Start(tk, m, tick) then []
    else Between(StartBlock(tk, m, tick), EndBlock(tk, m, tick))
  }

  lemma {:induction false} StartsBeforeEnd(tk: Ticker, m: Momentum, tick: nat)
    requires Runs(tk, m)
    ensures Ancestor(StartBlock(tk, m, tick), EndBlock(tk, m, tick))
    ensures EndBlock(tk, m, tick).timestamp < Start(tk, m, tick) ==> StartBlock(tk, m, tick) == EndBlock(tk, m, tick)
  {
    var e := EndBlock(tk, m, tick);
    LastBeforeIsAncestor(e, Start(tk, m, tick));
    RootIsFirst(e);
    if tick > 0 {
      assert Start(tk, m, tick) == End(tk, m, tick - 1);
      EndIsAfterRoot(tk, m, tick - 1);
      EndBlockNests(tk, m, tick - 1, tick);
      LastBeforeExists(e, End(tk, m, tick - 1));
    }
  }

  /** The momentums of a period run from its start block to its end block. */
  lemma {:induction false} ContentSpans(tk: Ticker, m: Momentum, tick: nat)
    requires Runs(tk, m)
    ensures var s, e, c := StartBlock(tk, m, tick), EndBlock(tk, m, tick), Content(tk, m, tick);
            && Height(s) <= Height(e) && |c| == Height(e) - Height(s)
            && if s == e then c == [] else c != [] && c[|c| - 1] == e && c[0].Next? && c[0].prev == s
  {
    StartsBeforeEnd(tk, m, tick);
    BetweenSpans(StartBlock(tk, m, tick), EndBlock(tk, m, tick));
  }

  lemma {:induction false} AncestorIsEarlier(a: Momentum, m: Momentum)
    requires Ancestor(a, m) && IsChain(m)
    ensures IsChain(a) && Root(a) == Root(m) && a.timestamp <= m.timestamp && (a == m || a.timestamp < m.timestamp)
  {
    if a != m { AncestorIsEarlier(a, m.prev); }
  }

  lemma {:induction false} LastBeforeExactly(m: Momentum, t: int, x: Momentum)
    requires IsChain(m) && Root(m).timestamp < t && Ancestor(x, m)
    ensures LastBefore(m, t).Some? && (Ancestor(x, LastBefore(m, t).value) <==> x.timestamp < t)
  {
    LastBeforeExists(m, t);
    if m.timestamp < t {
      AncestorIsEarlier(x, m);
    } else if x != m {
      LastBeforeExactly(m.prev, t, x);
    } else if Ancestor(x, LastBefore(m, t).value) {
      AncestorIsEarlier(x, LastBefore(m, t).value);
    }
  }

  /** The head of a period has below it exactly what is before the period's end. */
  lemma {:induction false} EndBlockExactly(tk: Ticker, m: Momentum, tick: nat, x: Momentum)
    requires Runs(tk, m) && Ancestor(x, m)
    ensures Ancestor(EndBlock(tk, m, tick), m)
    ensures Ancestor(x, EndBlock(tk, m, tick)) <==> x.timestamp < Root(m).timestamp + tk.interval * (tick + 1)
  {
    EndIsAfterRoot(tk, m, tick);
    LastBeforeIsAncestor(m, End(tk, m, tick));
    LastBeforeExactly(m, End(tk, m, tick), x);
  }

  lemma {:induction false} BetweenExactly(from: Momentum, m: Momentum, x: Momentum)
    requires Ancestor(from, m) && IsChain(m)
    ensures x in Between(from, m) <==> Ancestor(x, m) && !Ancestor(x, from)
  {
    if m != from {
      BetweenExactly(from, m.prev, x);
      NotAbove(from, m);
    }
  }

  lemma {:induction false} NotAbove(from: Momentum, m: Momentum)
    requires Ancestor(from, m) && IsChain(m) && m != from
    ensures !Ancestor(m, from)
  {
    AncestorIsEarlier(from, m);
    if Ancestor(m, from) { AncestorIsEarlier(m, from); }
  }

  /** The content of a period: the momentums, genesis apart, from its first second up to
      its end, which is the first second of the next. */
  lemma {:induction false} ContentExactly(tk: Ticker, m: Momentum, tick: nat, x: Momentum)
    requires Runs(tk, m)
    ensures x in Content(tk, m, tick) <==>
              && Ancestor(x, m) && x.Next?
              && Root(m).timestamp + tk.interval * tick <= x.timestamp < Root(m).timestamp + tk.interval * (tick + 1)
  {
    var s, e := StartBlock(tk, m, tick), EndBlock(tk, m, tick);
    StartsBeforeEnd(tk, m, tick);
    BetweenExactly(s, e, x);
    assert x in Content(tk, m, tick) <==> Ancestor(x, e) && !Ancestor(x, s) by {
      if s == e { BetweenSpans(s, e); }
    }
    EndBlockExactly(tk, m, tick, m);
    if Ancestor(x, e) { AncestorsNest(x, e, m); }
    if Ancestor(x, m) {
      EndBlockExactly(tk, m, tick, x);
      AncestorIsEarlier(x, m);
      if tick > 0 {
        EndBlockExactly(tk, m, tick - 1, x);
      } else {
        RootBelow(x, m);
      }
    }
  }

  lemma {:induction false} AncestorsNest(a: Momentum, b: Momentum, m: Momentum)
    requires Ancestor(a, b) && Ancestor(b, m)
    ensures Ancestor(a, m)
  {
    if b != m { AncestorsNest(a, b, m.prev); }
  }

  lemma {:induction false} RootBelow(x: Momentum, m: Momentum)
    requires Ancestor(x, m) && IsChain(m)
    ensures Ancestor(x, Root(m)) <==> x.Genesis?
    ensures Root(m).timestamp <= x.timestamp
  {
    AncestorIsEarlier(x, m);
    RootIsFirst(x);
    RootOfRoot(m);
  }
}
