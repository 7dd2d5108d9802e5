/** Pillar statistics: points of election periods built from the chain, folded
    backwards into epoch points, and kept in a store that is validated by the
    hash of the last momentum. */
module ConsensusPoints {
  import opened Bytes
  import opened ChainTicker

  // ---- Pillar details ----

  datatype Detail = Detail(expected: nat, factual: nat, weight: nat)

  type Pillars = map<string, Detail>

  const NOTHING := Detail(0, 0, 0)

  function Plus(a: Detail, b: Detail): Detail {
    Detail(a.expected + b.expected, a.factual + b.factual, a.weight + b.weight)
  }

  function At(p: Pillars, name: string): Detail { if name in p then p[name] else NOTHING }

  function Credit(p: Pillars, name: string, d: Detail): Pillars { p[name := Plus(At(p, name), d)] }

  datatype Entry = Entry(name: string, detail: Detail)

  function Tally(es: seq<Entry>): Pillars {
    if es == [] then map[] else Credit(Tally(es[..|es| - 1]), es[|es| - 1].name, es[|es| - 1].detail)
  }

  /** What the entries of one name add up to. */
  function Credited(es: seq<Entry>, name: string): Detail {
    if es == [] then NOTHING
    else
      var rest := Credited(es[..|es| - 1], name);
      if es[|es| - 1].name == name then Plus(rest, es[|es| - 1].detail) else rest
  }

  lemma {:induction false} TallyReads(es: seq<Entry>, name: string)
    ensures At(Tally(es), name) == Credited(es, name)
    ensures name in Tally(es) <==> exists i :: 0 <= i < |es| && es[i].name == name
  {
    if es != [] {
      var n := |es| - 1;
      TallyReads(es[..n], name);
      if i :| 0 <= i < |es| && es[i].name == name {
        if i < n { assert es[..n][i].name == name; }
      }
      if i :| 0 <= i < n && es[..n][i].name == name { assert es[i].name == name; }
    }
  }

  /** `Point.LeftAppend` on the pillars: copied when new, merged when present. */
  function Joined(a: Pillars, b: Pillars): (r: Pillars)
    ensures forall n :: n in r <==> n in a || n in b
    ensures forall n :: n in r ==> r[n] == if n !in b then a[n] else if n in a then Plus(a[n], b[n]) else b[n]
  {
    map n | n in a.Keys + b.Keys :: if n !in b then a[n] else if n in a then Plus(a[n], b[n]) else b[n]
  }

  lemma PlusNothing(d: Detail)
    ensures Plus(d, NOTHING) == d == Plus(NOTHING, d)
  {
  }

  lemma {:induction false} JoinedReads(a: Pillars, b: Pillars, name: string)
    ensures At(Joined(a, b), name) == Plus(At(a, name), At(b, name))
    ensures name in Joined(a, b) <==> name in a || name in b
  {
    hide Joined, Plus;
    PlusNothing(At(a, name));
    PlusNothing(At(b, name));
  }

  datatype Field = Factual | Weight

  function Of(d: Detail, f: Field): nat { if f == Factual then d.factual else d.weight }

  /** A number summed over all pillars. */
  ghost function Sum(p: Pillars, f: Field): nat {
    if p == map[] then 0 else var n :| n in p; Of(p[n], f) + Sum(p - {n}, f)
  }

  lemma {:induction false} SumWithout(p: Pillars, f: Field, name: string)
    requires name in p
    ensures Sum(p, f) == Of(p[name], f) + Sum(p - {name}, f)
  {
    var n :| n in p && Sum(p, f) == Of(p[n], f) + Sum(p - {n}, f);
    if n != name {
      SumWithout(p - {n}, f, name);
      SumWithout(p - {name}, f, n);
      assert p - {n} - {name} == p - {name} - {n};
    }
  }

  lemma {:induction false} SumCredit(p: Pillars, f: Field, name: string, d: Detail)
    ensures Sum(Credit(p, name, d), f) == Sum(p, f) + Of(d, f)
  {
    var q := Credit(p, name, d);
    SumWithout(q, f, name);
    if name in p {
      SumWithout(p, f, name);
      assert q - {name} == p - {name};
    } else {
      assert q - {name} == p;
    }
  }

  function SumOf(es: seq<Entry>, f: Field): nat {
    if es == [] then 0 else SumOf(es[..|es| - 1], f) + Of(es[|es| - 1].detail, f)
  }

  lemma {:induction false} SumTally(es: seq<Entry>, f: Field)
    ensures Sum(Tally(es), f) == SumOf(es, f)
  {
    if es != [] {
      SumTally(es[..|es| - 1], f);
      SumCredit(Tally(es[..|es| - 1]), f, es[|es| - 1].name, es[|es| - 1].detail);
    }
  }

  lemma {:induction false} JoinedStep(a: Pillars, b: Pillars, n: string)
    requires n in b
    ensures Joined(a, b) == Credit(Joined(a, b - {n}), n, b[n])
  {
    hide Joined, Plus;
    var l, r := Joined(a, b), Credit(Joined(a, b - {n}), n, b[n]);
    PlusNothing(b[n]);
    forall x ensures x in l <==> x in r {}
    forall x | x in l ensures l[x] == r[x] {}
  }

  lemma {:induction false} SumJoined(a: Pillars, b: Pillars, f: Field)
    ensures Sum(Joined(a, b), f) == Sum(a, f) + Sum(b, f)
    decreases |b.Keys|
  {
    if b == map[] {
      assert Joined(a, b) == a;
    } else {
      var n :| n in b;
      var b' := b - {n};
      assert b'.Keys == b.Keys - {n};
      SumWithout(b, f, n);
      SumJoined(a, b', f);
      JoinedStep(a, b, n);
      SumCredit(Joined(a, b'), f, n, b[n]);
    }
  }

  // ---- Period points ----

  datatype Producer = Producer(name: string, address: Bytes)
  datatype Delegation = Delegation(name: string, weight: nat)
  datatype Election = Election(producers: seq<Producer>, delegations: seq<Delegation>)

  /** The tickers, and the election each momentum's state gives. */
  datatype Rules = Rules(tk: Ticker, elect: Momentum -> Election)

  /** The momentum whose state decides the election of a period. */
  function ProofTime(tk: Ticker, m: Momentum, tick: nat): int {
    if tick < 2 then Root(m).timestamp + 1 else End(tk, m, tick - 2)
  }

  function ElectionByTick(rules: Rules, m: Momentum, tick: nat): Election
    requires Runs(rules.tk, m)
  {
    ProofTimeInRange(rules.tk, m, tick);
    LastBeforeExists(m, ProofTime(rules.tk, m, tick));
    rules.elect(LastBefore(m, ProofTime(rules.tk, m, tick)).value)
  }

  lemma ProofTimeInRange(tk: Ticker, m: Momentum, tick: nat)
    requires Runs(tk, m)
    ensures Root(m).timestamp < ProofTime(tk, m, tick) <= End(tk, m, tick)
  {
    EndIsAfterRoot(tk, m, tick);
    if tick >= 2 {
      EndIsAfterRoot(tk, m, tick - 2);
      assert tk.interval * (tick - 1) <= tk.interval * (tick + 1);
    }
  }

  /** Whose state decides: the head two periods back, and in the first two periods
      genesis. */
  lemma {:induction false} ElectionExactly(rules: Rules, m: Momentum, tick: nat)
    requires Runs(rules.tk, m)
    ensures ElectionByTick(rules, m, tick) ==
            rules.elect(if tick < 2 then Root(m) else EndBlock(rules.tk, m, tick - 2))
  {
    if tick < 2 { GenesisDecides(m, Root(m).timestamp + 1); }
  }

  /** Who produces in a period is settled before the period before it starts: by the
      head two periods back, and in the first two periods by genesis alone. */
  lemma {:induction false} ElectionIsSettled(rules: Rules, m: Momentum, n: Momentum, tick: nat)
    requires Runs(rules.tk, m) && Runs(rules.tk, n) && Root(m) == Root(n)
    requires tick >= 2 ==> EndBlock(rules.tk, m, tick - 2) == EndBlock(rules.tk, n, tick - 2)
    ensures ElectionByTick(rules, m, tick) == ElectionByTick(rules, n, tick)
  {
    ElectionExactly(rules, m, tick);
    ElectionExactly(rules, n, tick);
  }

  lemma {:induction false} GenesisDecides(m: Momentum, t: int)
    requires IsChain(m) && t == Root(m).timestamp + 1
    ensures LastBefore(m, t) == Some(Root(m))
  {
    if m.Next? {
      RootIsFirst(m.prev);
      GenesisDecides(m.prev, t);
    }
  }

  datatype Point = Point(prev: Momentum, end: Momentum, pillars: Pillars, total: nat)

  /** The name of a producing address; later producers win, strangers have none. */
  function NameOf(producers: seq<Producer>, address: Bytes): string {
    if producers == [] then ""
    else if producers[|producers| - 1].address == address then producers[|producers| - 1].name
    else NameOf(producers[..|producers| - 1], address)
  }

  /** The i-th is the last producer with an address. */
  ghost predicate IsLastWith(ps: seq<Producer>, address: Bytes, i: nat) {
    i < |ps| && ps[i].address == address && forall j :: i < j < |ps| ==> ps[j].address != address
  }

  lemma {:induction false} NameOfExactly(ps: seq<Producer>, address: Bytes, i: nat)
    ensures IsLastWith(ps, address, i) ==> NameOf(ps, address) == ps[i].name
    ensures (forall j :: 0 <= j < |ps| ==> ps[j].address != address) ==> NameOf(ps, address) == ""
  {
    if ps != [] && ps[|ps| - 1].address != address {
      var less := ps[..|ps| - 1];
      NameOfExactly(less, address, i);
      assert forall j :: 0 <= j < |less| ==> less[j] == ps[j];
      if IsLastWith(ps, address, i) { assert IsLastWith(less, address, i); }
    }
  }

  function ProducerOf(m: Momentum): Bytes { if m.Next? then m.producer else [] }

  function ProducedEntries(el: Election, blocks: seq<Momentum>): (es: seq<Entry>)
    ensures |es| == |blocks|
  {
    seq(|blocks|, i requires 0 <= i < |blocks| => Entry(NameOf(el.producers, ProducerOf(blocks[i])), Detail(0, 1, 0)))
  }

  function ExpectedEntries(el: Election): (es: seq<Entry>)
    ensures |es| == |el.producers|
  {
    seq(|el.producers|, i requires 0 <= i < |el.producers| => Entry(el.producers[i].name, Detail(1, 0, 0)))
  }

  function WeightEntries(el: Election): (es: seq<Entry>)
    ensures |es| == |el.delegations|
  {
    seq(|el.delegations|,
        i requires 0 <= i < |el.delegations| => Entry(el.delegations[i].name, Detail(0, 0, el.delegations[i].weight)))
  }

  function Entries(el: Election, blocks: seq<Momentum>): seq<Entry> {
    ProducedEntries(el, blocks) + ExpectedEntries(el) + WeightEntries(el)
  }

  function TotalWeight(ds: seq<Delegation>): nat {
    if ds == [] then 0 else TotalWeight(ds[..|ds| - 1]) + ds[|ds| - 1].weight
  }

  /** The point of a period: who produced, who was expected to, and the weights. */
  function PeriodPoint(rules: Rules, m: Momentum, tick: nat): Point
    requires Runs(rules.tk, m)
  {
    var el := ElectionByTick(rules, m, tick);
    Point(StartBlock(rules.tk, m, tick), EndBlock(rules.tk, m, tick), Tally(Entries(el, Content(rules.tk, m, tick))),
        TotalWeight(el.delegations))
  }

  /** A period's point only depends on its last momentum: the same chain below it
      gives the same content and the same election. */
  lemma {:induction false} PointOfEndBlock(rules: Rules, m: Momentum, n: Momentum, tick: nat)
    requires Runs(rules.tk, m) && Runs(rules.tk, n) && EndBlock(rules.tk, m, tick) == EndBlock(rules.tk, n, tick)
    ensures PeriodPoint(rules, m, tick) == PeriodPoint(rules, n, tick)
  {
    PointAtEndBlock(rules, m, tick);
    PointAtEndBlock(rules, n, tick);
  }

  lemma {:induction false} PointAtEndBlock(rules: Rules, m: Momentum, tick: nat)
    requires Runs(rules.tk, m)
    ensures PeriodPoint(rules, m, tick) == PeriodPoint(rules, EndBlock(rules.tk, m, tick), tick)
  {
    var tk, e := rules.tk, EndBlock(rules.tk, m, tick);
    EndBlockNests(tk, m, tick, tick);
    if tick > 0 { EndBlockNests(tk, m, tick - 1, tick); }
    ProofTimeInRange(tk, m, tick);
    EndIsAfterRoot(tk, m, tick);
    LastBeforeNests(m, End(tk, m, tick), ProofTime(tk, m, tick));
  }

  /** Counting on from the tally of earlier entries. */
  lemma TallyNext(pre: seq<Entry>, es: seq<Entry>, k: nat)
    requires k < |es|
    ensures Tally(pre + es[..k + 1]) == Credit(Tally(pre + es[..k]), es[k].name, es[k].detail)
  {
    assert (pre + es[..k + 1])[..|pre| + k] == pre + es[..k];
  }

  /** The three counting loops over blocks, producers and delegations. */
  method GeneratePointFromChain(rules: Rules, m: Momentum, tick: nat) returns (point: Point)
    requires Runs(rules.tk, m)
    ensures point == PeriodPoint(rules, m, tick)
  {
    var election := ElectionByTick(rules, m, tick);
    var endBlock := EndBlock(rules.tk, m, tick);
    var blocks := Content(rules.tk, m, tick);
    ContentSpans(rules.tk, m, tick);
    var prev, end := endBlock, endBlock;
    if blocks != [] {
      prev, end := blocks[0].prev, blocks[|blocks| - 1];
    }
    var pillars, total := CountAll(election, blocks);
    point := Point(prev, end, pillars, total);
  }

  method CountAll(election: Election, blocks: seq<Momentum>) returns (pillars: Pillars, total: nat)
    ensures pillars == Tally(Entries(election, blocks)) && total == TotalWeight(election.delegations)
  {
    pillars := CountProduced(election, blocks);
    ghost var produced := ProducedEntries(election, blocks);
    pillars := CountExpected(election, pillars, produced);
    pillars, total := CountWeights(election, pillars, produced + ExpectedEntries(election));
  }

  method CountProduced(election: Election, blocks: seq<Momentum>) returns (pillars: Pillars)
    ensures pillars == Tally(ProducedEntries(election, blocks))
  {
    hide Credit;
    var nameLookup := BuildLookup(election.producers);
    ghost var es := ProducedEntries(election, blocks);
    pillars := map[];
    assert [] + es[..0] == [];
    for k := 0 to |blocks|
      invariant pillars == Tally([] + es[..k])
    {
      var producer := ProducerOf(blocks[k]);
      var name := if producer in nameLookup then nameLookup[producer] else "";
      TallyNext([], es, k);
      pillars := Credit(pillars, name, Detail(0, 1, 0));
    }
    assert [] + es[..|es|] == es;
  }

  method CountExpected(election: Election, before: Pillars, ghost pre: seq<Entry>) returns (pillars: Pillars)
    requires before == Tally(pre)
    ensures pillars == Tally(pre + ExpectedEntries(election))
  {
    hide Credit, Tally;
    ghost var es := ExpectedEntries(election);
    pillars := before;
    assert pre + es[..0] == pre;
    for k := 0 to |election.producers|
      invariant pillars == Tally(pre + es[..k])
    {
      TallyNext(pre, es, k);
      pillars := Credit(pillars, election.producers[k].name, Detail(1, 0, 0));
    }
    assert es[..|es|] == es;
  }

  method CountWeights(election: Election, before: Pillars, ghost pre: seq<Entry>) returns (pillars: Pillars, total: nat)
    requires before == Tally(pre)
    ensures pillars == Tally(pre + WeightEntries(election)) && total == TotalWeight(election.delegations)
  {
    hide Credit, Tally;
    ghost var es := WeightEntries(election);
    pillars, total := before, 0;
    assert pre + es[..0] == pre;
    for k := 0 to |election.delegations|
      invariant pillars == Tally(pre + es[..k]) && total == TotalWeight(election.delegations[..k])
    {
      TallyNext(pre, es, k);
      assert election.delegations[..k + 1][..k] == election.delegations[..k];
      total := total + election.delegations[k].weight;
      pillars := Credit(pillars, election.delegations[k].name, Detail(0, 0, election.delegations[k].weight));
    }
    assert es[..|es|] == es && election.delegations[..|election.delegations|] == election.delegations;
  }

  method BuildLookup(producers: seq<Producer>) returns (lookup: map<Bytes, string>)
    ensures forall a :: NameOf(producers, a) == if a in lookup then lookup[a] else ""
  {
    lookup := map[];
    for k := 0 to |producers|
      invariant forall a :: NameOf(producers[..k], a) == if a in lookup then lookup[a] else ""
    {
      assert producers[..k + 1][..k] == producers[..k];
      lookup := lookup[producers[k].address := producers[k].name];
    }
    assert producers[..|producers|] == producers;
  }

  /** Every momentum of a period is counted once, whoever produced it. */
  lemma {:induction false} PeriodProduced(rules: Rules, m: Momentum, tick: nat)
    requires Runs(rules.tk, m)
    ensures Sum(PeriodPoint(rules, m, tick).pillars, Factual) ==
        Height(EndBlock(rules.tk, m, tick)) - Height(StartBlock(rules.tk, m, tick))
  {
    hide Tally, SumOf, Sum, Content, ElectionByTick, StartBlock, EndBlock;
    var el, blocks := ElectionByTick(rules, m, tick), Content(rules.tk, m, tick);
    var produced, expected, weights := ProducedEntries(el, blocks), ExpectedEntries(el), WeightEntries(el);
    SumTally(Entries(el, blocks), Factual);
    SumOfConcat(produced + expected, weights, Factual);
    SumOfConcat(produced, expected, Factual);
    SumOfUniform(produced, Factual, 1);
    SumOfUniform(expected, Factual, 0);
    SumOfUniform(weights, Factual, 0);
    ContentSpans(rules.tk, m, tick);
  }

  lemma {:induction false} SumOfConcat(a: seq<Entry>, b: seq<Entry>, f: Field)
    ensures SumOf(a + b, f) == SumOf(a, f) + SumOf(b, f)
  {
    if b == [] {
      assert a + b == a;
    } else {
      assert (a + b)[..|a + b| - 1] == a + b[..|b| - 1];
      SumOfConcat(a, b[..|b| - 1], f);
    }
  }

  lemma {:induction false} SumOfUniform(es: seq<Entry>, f: Field, n: nat)
    requires forall i :: 0 <= i < |es| ==> Of(es[i].detail, f) == n
    ensures SumOf(es, f) == n * |es|
  {
    if es != [] { SumOfUniform(es[..|es| - 1], f, n); }
  }

  lemma {:induction false} SumOfWeights(el: Election)
    ensures SumOf(WeightEntries(el), Weight) == TotalWeight(el.delegations)
    decreases |el.delegations|
  {
    if el.delegations != [] {
      var shorter := el.(delegations := el.delegations[..|el.delegations| - 1]);
      assert WeightEntries(el)[..|el.delegations| - 1] == WeightEntries(shorter);
      SumOfWeights(shorter);
    }
  }

  /** The total is the weight of all pillars together; the point goes from the period's
      start block to its head. */
  lemma {:induction false} PeriodWeighs(rules: Rules, m: Momentum, tick: nat)
    requires Runs(rules.tk, m)
    ensures var p := PeriodPoint(rules, m, tick);
            && p.total == Sum(p.pillars, Weight)
            && p.prev == (if tick == 0 then Root(m) else EndBlock(rules.tk, m, tick - 1))
            && p.end == EndBlock(rules.tk, m, tick)
  {
    hide Tally, SumOf, Sum, Content, ElectionByTick, EndBlock, TotalWeight;
    var el, blocks := ElectionByTick(rules, m, tick), Content(rules.tk, m, tick);
    var produced, expected, weights := ProducedEntries(el, blocks), ExpectedEntries(el), WeightEntries(el);
    SumTally(Entries(el, blocks), Weight);
    SumOfConcat(produced + expected, weights, Weight);
    SumOfConcat(produced, expected, Weight);
    SumOfUniform(produced, Weight, 0);
    SumOfUniform(expected, Weight, 0);
    SumOfWeights(el);
  }

  /** Slots a pillar was elected to, momentums it produced, weight delegated to it. */
  function Slots(ps: seq<Producer>, name: string): nat {
    if ps == [] then 0 else Slots(ps[..|ps| - 1], name) + if ps[|ps| - 1].name == name then 1 else 0
  }

  function Wins(el: Election, blocks: seq<Momentum>, name: string): nat {
    if blocks == [] then 0
    else Wins(el, blocks[..|blocks| - 1], name)
         + if NameOf(el.producers, ProducerOf(blocks[|blocks| - 1])) == name then 1 else 0
  }

  function Delegated(ds: seq<Delegation>, name: string): nat {
    if ds == [] then 0
    else Delegated(ds[..|ds| - 1], name) + if ds[|ds| - 1].name == name then ds[|ds| - 1].weight else 0
  }

  lemma {:induction false} CreditedConcat(a: seq<Entry>, b: seq<Entry>, name: string)
    ensures Credited(a + b, name) == Plus(Credited(a, name), Credited(b, name))
  {
    hide Credited;
    var ab := a + b;
    CreditedNext(b, name);
    if b == [] {
      assert ab == a;
    } else {
      var b' := b[..|b| - 1];
      CreditedConcat(a, b', name);
      CreditedNext(ab, name);
      assert ab[..|ab| - 1] == a + b' && ab[|ab| - 1] == b[|b| - 1];
    }
  }

  lemma CreditedNext(es: seq<Entry>, name: string)
    ensures if es == [] then Credited(es, name) == NOTHING
            else var e, rest := es[|es| - 1], Credited(es[..|es| - 1], name);
                 Credited(es, name) == if e.name == name then Plus(rest, e.detail) else rest
  {
  }

  lemma {:induction false} CreditedExpected(el: Election, name: string)
    ensures Credited(ExpectedEntries(el), name) == Detail(Slots(el.producers, name), 0, 0)
    decreases |el.producers|
  {
    if el.producers != [] {
      var shorter := el.(producers := el.producers[..|el.producers| - 1]);
      assert ExpectedEntries(el)[..|el.producers| - 1] == ExpectedEntries(shorter);
      CreditedExpected(shorter, name);
    }
  }

  lemma {:induction false} CreditedProduced(el: Election, blocks: seq<Momentum>, name: string)
    ensures Credited(ProducedEntries(el, blocks), name) == Detail(0, Wins(el, blocks, name), 0)
  {
    if blocks != [] {
      assert ProducedEntries(el, blocks)[..|blocks| - 1] == ProducedEntries(el, blocks[..|blocks| - 1]);
      CreditedProduced(el, blocks[..|blocks| - 1], name);
    }
  }

  lemma {:induction false} CreditedWeights(el: Election, name: string)
    ensures Credited(WeightEntries(el), name) == Detail(0, 0, Delegated(el.delegations, name))
    decreases |el.delegations|
  {
    if el.delegations != [] {
      var shorter := el.(delegations := el.delegations[..|el.delegations| - 1]);
      assert WeightEntries(el)[..|el.delegations| - 1] == WeightEntries(shorter);
      CreditedWeights(shorter, name);
    }
  }

  /** A period's point counts, per pillar, exactly its slots, its momentums and its
      weight, in the election by the head two periods back, or by genesis. */
  lemma {:induction false} PeriodCounts(rules: Rules, m: Momentum, tick: nat, name: string)
    requires Runs(rules.tk, m)
    ensures var el := rules.elect(if tick < 2 then Root(m) else EndBlock(rules.tk, m, tick - 2));
            var blocks := Content(rules.tk, m, tick);
            At(PeriodPoint(rules, m, tick).pillars, name) ==
            Detail(Slots(el.producers, name), Wins(el, blocks, name), Delegated(el.delegations, name))
  {
    hide Content, ElectionByTick, EndBlock, StartBlock, Tally, Slots, Wins, Delegated, At, TotalWeight;
    ElectionExactly(rules, m, tick);
    EntriesCount(ElectionByTick(rules, m, tick), Content(rules.tk, m, tick), name);
  }

  lemma {:induction false} EntriesCount(el: Election, blocks: seq<Momentum>, name: string)
    ensures At(Tally(Entries(el, blocks)), name) ==
            Detail(Slots(el.producers, name), Wins(el, blocks, name), Delegated(el.delegations, name))
  {
    hide Tally, Credited, ProducedEntries, ExpectedEntries, WeightEntries, Slots, Wins, Delegated, At;
    TallyReads(Entries(el, blocks), name);
    CreditedConcat(ProducedEntries(el, blocks) + ExpectedEntries(el), WeightEntries(el), name);
    CreditedConcat(ProducedEntries(el, blocks), ExpectedEntries(el), name);
    CreditedProduced(el, blocks, name);
    CreditedExpected(el, name);
    CreditedWeights(el, name);
  }

  predicate Names(es: seq<Entry>, name: string) { exists i :: 0 <= i < |es| && es[i].name == name }

  lemma NamesConcat(a: seq<Entry>, b: seq<Entry>, name: string)
    ensures Names(a + b, name) <==> Names(a, name) || Names(b, name)
  {
    if i :| 0 <= i < |b| && b[i].name == name { assert (a + b)[|a| + i].name == name; }
    if i :| 0 <= i < |a| && a[i].name == name { assert (a + b)[i].name == name; }
  }

  predicate Elected(el: Election, name: string) {
    exists i :: 0 <= i < |el.producers| && el.producers[i].name == name
  }

  predicate Weighed(el: Election, name: string) {
    exists i :: 0 <= i < |el.delegations| && el.delegations[i].name == name
  }

  predicate Signed(el: Election, blocks: seq<Momentum>, name: string) {
    exists i :: 0 <= i < |blocks| && NameOf(el.producers, ProducerOf(blocks[i])) == name
  }

  lemma {:induction false} EntriesName(el: Election, blocks: seq<Momentum>, name: string)
    ensures name in Tally(Entries(el, blocks)) <==> Elected(el, name) || Weighed(el, name) || Signed(el, blocks, name)
  {
    hide NameOf, Tally;
    var produced, expected, weights := ProducedEntries(el, blocks), ExpectedEntries(el), WeightEntries(el);
    TallyReads(Entries(el, blocks), name);
    NamesConcat(produced + expected, weights, name);
    NamesConcat(produced, expected, name);
    assert forall i :: 0 <= i < |el.producers| ==> expected[i].name == el.producers[i].name;
    assert forall i :: 0 <= i < |el.delegations| ==> weights[i].name == el.delegations[i].name;
    assert forall i :: 0 <= i < |blocks| ==> produced[i].name == NameOf(el.producers, ProducerOf(blocks[i]));
  }

  /** A period's point lists exactly who was elected, had weight or produced. */
  lemma {:induction false} PeriodNames(rules: Rules, m: Momentum, tick: nat, name: string)
    requires Runs(rules.tk, m)
    ensures var el := rules.elect(if tick < 2 then Root(m) else EndBlock(rules.tk, m, tick - 2));
            name in PeriodPoint(rules, m, tick).pillars <==>
            Elected(el, name) || Weighed(el, name) || Signed(el, Content(rules.tk, m, tick), name)
  {
    hide Content, ElectionByTick, EndBlock, StartBlock, Tally, Elected, Weighed, Signed;
    ElectionExactly(rules, m, tick);
    EntriesName(ElectionByTick(rules, m, tick), Content(rules.tk, m, tick), name);
  }

  // ---- The store of period points ----

  /** A stored point is the point of some chain the node was on. */
  ghost predicate Genuine(rules: Rules, tick: nat, point: Point) {
    exists m :: Runs(rules.tk, m) && point == PeriodPoint(rules, m, tick)
  }

  /** A stored point that passes the end-hash check is the current one. */
  lemma {:induction false} AcceptedIsCurrent(rules: Rules, m: Momentum, tick: nat, point: Point)
    requires Runs(rules.tk, m) && Genuine(rules, tick, point) && point.end == EndBlock(rules.tk, m, tick)
    ensures point == PeriodPoint(rules, m, tick)
  {
    var n :| Runs(rules.tk, n) && point == PeriodPoint(rules, n, tick);
    PointOfEndBlock(rules, m, n, tick);
  }

  lemma CurrentIsGenuine(rules: Rules, m: Momentum, tick: nat)
    requires Runs(rules.tk, m)
    ensures Genuine(rules, tick, PeriodPoint(rules, m, tick))
  {
  }

  /** A point is stored and ends in this momentum. */
  predicate Answers(stored: map<nat, Point>, tick: nat, end: Momentum) {
    tick in stored && stored[tick].end == end
  }

  class PeriodPoints {
    const rules: Rules
    var stored: map<nat, Point>

    ghost predicate Valid()
      reads this
    {
      forall tick :: tick in stored ==> Genuine(rules, tick, stored[tick])
    }

    constructor (rules: Rules)
      ensures Valid() && this.rules == rules && stored == map[]
    {
      this.rules, stored := rules, map[];
    }

    /** Whatever chains the node was on before, a point read now is the point that
        would be regenerated from the chain it is on, and nil before the period. */
    method GetPoint(m: Momentum, tick: nat) returns (point: Option<Point>)
      requires Valid() && Runs(rules.tk, m)
      modifies this
      ensures Valid()
      ensures point == if HasStarted(rules.tk, m, tick) then Some(PeriodPoint(rules, m, tick)) else None
      ensures point == None <==> m.timestamp < Root(m).timestamp + rules.tk.interval * tick
      ensures stored == if point == None then old(stored)
                        else if Answers(old(stored), tick, EndBlock(rules.tk, m, tick)) then old(stored)
                        else if m.timestamp >= Root(m).timestamp + rules.tk.interval * (tick + 1)
                        then old(stored)[tick := PeriodPoint(rules, m, tick)]
                        else old(stored) - {tick}
    {
      hide PeriodPoint, Genuine, EndBlock;
      CurrentIsGenuine(rules, m, tick);
      if !HasStarted(rules.tk, m, tick) {
        return None;
      }
      var endBlock := EndBlock(rules.tk, m, tick);
      if tick in stored {
        if stored[tick].end != endBlock {
          stored := stored - {tick};
        } else {
          AcceptedIsCurrent(rules, m, tick, stored[tick]);
          return Some(stored[tick]);
        }
      }
      var built := GeneratePointFromChain(rules, m, tick);
      if IsFinished(rules.tk, m, tick) {
        stored := stored[tick := built];
      }
      point := Some(built);
    }
  }

  // ---- Epoch points ----

  /** The epoch's periods are firstPeriod to firstPeriod + multiplier - 1. */
  function FirstPeriod(tk: Ticker, epoch: nat): nat { epoch * tk.multiplier }

  function LastPeriod(tk: Ticker, epoch: nat): nat
    requires tk.multiplier > 0
  {
    epoch * tk.multiplier + tk.multiplier - 1
  }

  /** An epoch lasts `multiplier` periods, so the chain tickers of both agree on
      when it starts and ends. */
  lemma EpochTimes(tk: Ticker, m: Momentum, epoch: nat)
    requires Runs(tk, m)
    ensures Start(tk, m, FirstPeriod(tk, epoch)) == Root(m).timestamp + (tk.interval * tk.multiplier) * epoch
    ensures End(tk, m, LastPeriod(tk, epoch)) == Root(m).timestamp + (tk.interval * tk.multiplier) * (epoch + 1)
  {
    assert tk.interval * (epoch * tk.multiplier) == (tk.interval * tk.multiplier) * epoch;
    assert LastPeriod(tk, epoch) + 1 == (epoch + 1) * tk.multiplier;
    assert tk.interval * ((epoch + 1) * tk.multiplier) == (tk.interval * tk.multiplier) * (epoch + 1);
  }

  /** The pillars of the started periods from i up, joined as the loop joins them. */
  function Folded(rules: Rules, m: Momentum, i: nat, end: nat): Pillars
    requires Runs(rules.tk, m) && i <= end
    decreases end - i
  {
    if i == end then map[]
    else
      var rest := Folded(rules, m, i + 1, end);
      if HasStarted(rules.tk, m, i) then Joined(rest, PeriodPoint(rules, m, i).pillars) else rest
  }

  function Present(tk: Ticker, m: Momentum, i: nat, end: nat): nat
    requires i <= end
    decreases end - i
  {
    if i == end then 0 else Present(tk, m, i + 1, end) + if HasStarted(tk, m, i) then 1 else 0
  }

  /** The periods from i up that have begun. */
  function Begun(tk: Ticker, m: Momentum, i: nat, end: nat): set<int> {
    set k: int | i <= k < end && m.timestamp >= Root(m).timestamp + tk.interval * k
  }

  lemma {:induction false} PresentExactly(tk: Ticker, m: Momentum, i: nat, end: nat)
    requires i <= end
    ensures Present(tk, m, i, end) == |Begun(tk, m, i, end)|
    decreases end - i
  {
    if i < end {
      PresentExactly(tk, m, i + 1, end);
      assert Begun(tk, m, i, end) == Begun(tk, m, i + 1, end) + if HasStarted(tk, m, i) then {i} else {};
    }
  }

  /** What a pillar's numbers add up to over the started periods. */
  function Added(rules: Rules, m: Momentum, i: nat, end: nat, name: string): Detail
    requires Runs(rules.tk, m) && i <= end
    decreases end - i
  {
    if i == end then NOTHING
    else
      var rest := Added(rules, m, i + 1, end, name);
      if HasStarted(rules.tk, m, i) then Plus(rest, At(PeriodPoint(rules, m, i).pillars, name)) else rest
  }

  lemma {:induction false} FoldedReads(rules: Rules, m: Momentum, i: nat, end: nat, name: string)
    requires Runs(rules.tk, m) && i <= end
    ensures At(Folded(rules, m, i, end), name) == Added(rules, m, i, end, name)
    decreases end - i
  {
    hide PeriodPoint, Plus, Joined;
    if i < end {
      FoldedReads(rules, m, i + 1, end, name);
      if HasStarted(rules.tk, m, i) {
        JoinedReads(Folded(rules, m, i + 1, end), PeriodPoint(rules, m, i).pillars, name);
      }
    }
  }

  /** A period that has started lists the pillar. */
  predicate ListsAt(rules: Rules, m: Momentum, k: nat, name: string)
    requires Runs(rules.tk, m)
  {
    HasStarted(rules.tk, m, k) && name in PeriodPoint(rules, m, k).pillars
  }

  lemma {:induction false} FoldedNames(rules: Rules, m: Momentum, i: nat, end: nat, name: string)
    requires Runs(rules.tk, m) && i <= end
    ensures name in Folded(rules, m, i, end) <==> exists k: nat :: i <= k < end && ListsAt(rules, m, k, name)
    decreases end - i
  {
    hide PeriodPoint, Plus, HasStarted;
    if i < end {
      FoldedNames(rules, m, i + 1, end, name);
      assert ListsAt(rules, m, i, name) <==> HasStarted(rules.tk, m, i) && name in PeriodPoint(rules, m, i).pillars;
    }
  }

  /** A period that has not started changes nothing: its head is the frontier. */
  lemma {:induction false} UnstartedIsEmpty(tk: Ticker, m: Momentum, i: nat)
    requires Runs(tk, m) && !HasStarted(tk, m, i)
    ensures i > 0 && EndBlock(tk, m, i) == m == StartBlock(tk, m, i)
  {
    RootIsFirst(m);
    assert tk.interval * i <= tk.interval * (i + 1);
    EndIsAfterRoot(tk, m, i);
    LastBeforeExists(m, End(tk, m, i));
    if i > 0 {
      EndIsAfterRoot(tk, m, i - 1);
      LastBeforeExists(m, End(tk, m, i - 1));
    }
  }

  /** Over an epoch the produced numbers are the momentums between its ends. */
  lemma {:induction false} FoldedProduced(rules: Rules, m: Momentum, i: nat, end: nat)
    requires Runs(rules.tk, m) && i <= end
    ensures Sum(Folded(rules, m, i, end), Factual) ==
        Height(StartBlock(rules.tk, m, end)) - Height(StartBlock(rules.tk, m, i))
    decreases end - i
  {
    hide PeriodPoint, Joined;
    if i < end {
      FoldedProduced(rules, m, i + 1, end);
      assert StartBlock(rules.tk, m, i + 1) == EndBlock(rules.tk, m, i);
      if HasStarted(rules.tk, m, i) {
        PeriodProduced(rules, m, i);
        SumJoined(Folded(rules, m, i + 1, end), PeriodPoint(rules, m, i).pillars, Factual);
      } else {
        UnstartedIsEmpty(rules.tk, m, i);
      }
    }
  }

  lemma {:induction false} PresentBounds(tk: Ticker, m: Momentum, i: nat, end: nat)
    requires i < end && HasStarted(tk, m, i)
    ensures Present(tk, m, i, end) >= 1
  {
  }

  /** Weights are averaged over the periods that took part. */
  function Averaged(p: Pillars, n: nat): (r: Pillars)
    requires n > 0
    ensures forall k :: k in r <==> k in p
    ensures forall k :: k in r ==> r[k] == Detail(p[k].expected, p[k].factual, p[k].weight / n)
  {
    map k | k in p :: Detail(p[k].expected, p[k].factual, p[k].weight / n)
  }

  lemma {:induction false} AveragedSum(p: Pillars, n: nat)
    requires n > 0
    ensures Sum(Averaged(p, n), Factual) == Sum(p, Factual)
    decreases |p.Keys|
  {
    if p == map[] {
      assert Averaged(p, n) == map[];
    } else {
      var k :| k in p;
      assert (p - {k}).Keys == p.Keys - {k};
      SumWithout(p, Factual, k);
      SumWithout(Averaged(p, n), Factual, k);
      AveragedSum(p - {k}, n);
      assert Averaged(p, n) - {k} == Averaged(p - {k}, n);
    }
  }

  ghost function EpochPoint(rules: Rules, m: Momentum, epoch: nat): Point
    requires Runs(rules.tk, m) && HasStarted(rules.tk, m, FirstPeriod(rules.tk, epoch))
  {
    var first, last := FirstPeriod(rules.tk, epoch), LastPeriod(rules.tk, epoch);
    PresentBounds(rules.tk, m, first, last + 1);
    var pillars := Averaged(Folded(rules, m, first, last + 1), Present(rules.tk, m, first, last + 1));
    Point(StartBlock(rules.tk, m, first), EndBlock(rules.tk, m, last), pillars, Sum(pillars, Weight))
  }

  /** A started epoch's numbers: per pillar the sums over its started periods, the
      weight averaged over them, and in all every non-genesis momentum of the epoch. */
  lemma {:induction false} EpochReads(rules: Rules, m: Momentum, epoch: nat, name: string)
    requires Runs(rules.tk, m) && HasStarted(rules.tk, m, FirstPeriod(rules.tk, epoch))
    ensures var first, last := FirstPeriod(rules.tk, epoch), LastPeriod(rules.tk, epoch);
            var added, present := Added(rules, m, first, last + 1, name), Present(rules.tk, m, first, last + 1);
            present >= 1 && At(EpochPoint(rules, m, epoch).pillars, name) ==
                Detail(added.expected, added.factual, added.weight / present)
    ensures var p := EpochPoint(rules, m, epoch);
            && Sum(p.pillars, Factual) == Height(p.end) - Height(p.prev) && p.total == Sum(p.pillars, Weight)
            && p.prev == StartBlock(rules.tk, m, FirstPeriod(rules.tk, epoch))
            && p.end == EndBlock(rules.tk, m, LastPeriod(rules.tk, epoch))
    ensures var first, last := FirstPeriod(rules.tk, epoch), LastPeriod(rules.tk, epoch);
            name in EpochPoint(rules, m, epoch).pillars <==>
            exists k: nat :: first <= k < last + 1 && ListsAt(rules, m, k, name)
  {
    hide PeriodPoint, Joined, Folded, Added, Sum, Present, StartBlock, EndBlock, Averaged;
    var first, last := FirstPeriod(rules.tk, epoch), LastPeriod(rules.tk, epoch);
    PresentBounds(rules.tk, m, first, last + 1);
    FoldedReads(rules, m, first, last + 1, name);
    FoldedNames(rules, m, first, last + 1, name);
    AveragedSum(Folded(rules, m, first, last + 1), Present(rules.tk, m, first, last + 1));
    FoldedProduced(rules, m, first, last + 1);
    StartIsPreviousEnd(rules.tk, m, last);
  }

  lemma OneLess(m: Pillars, todo: set<string>, k: string)
    requires k in todo && todo <= m.Keys
    ensures k in m - (todo - {k}) && m - (todo - {k}) - {k} == m - todo && (m - (todo - {k}))[k] == m[k]
  {
  }

  method Join(a: Pillars, b: Pillars) returns (r: Pillars)
    ensures r == Joined(a, b)
  {
    hide Plus, Joined, Credit;
    var todo := b.Keys;
    r := a;
    assert b - todo == map[] && Joined(a, map[]) == a;
    while todo != {}
      invariant todo <= b.Keys && r == Joined(a, b - todo)
      decreases todo
    {
      var k :| k in todo;
      r := Credit(r, k, b[k]);
      OneLess(b, todo, k);
      JoinedStep(a, b - (todo - {k}), k);
      todo := todo - {k};
    }
    assert b - {} == b;
  }

  /** `Point.LeftAppend`: refused unless the left point ends where this one starts. */
  method LeftAppend(p: Point, left: Point) returns (ok: bool, r: Point)
    ensures ok <==> left.end == p.prev
    ensures r == if ok then Point(left.prev, p.end, Joined(p.pillars, left.pillars), p.total + left.total) else p
  {
    if left.end != p.prev {
      return false, p;
    }
    var pillars := Join(p.pillars, left.pillars);
    ok, r := true, Point(left.prev, p.end, pillars, p.total + left.total);
  }

  method AverageWeights(pillars: Pillars, n: nat) returns (r: Pillars, total: nat)
    requires n > 0
    ensures r == Averaged(pillars, n) && total == Sum(r, Weight)
  {
    ghost var goal := Averaged(pillars, n);
    r, total := map[], 0;
    var todo := pillars.Keys;
    assert goal - todo == map[];
    while todo != {}
      invariant todo <= pillars.Keys && r == goal - todo && total == Sum(r, Weight)
      decreases todo
    {
      var k :| k in todo;
      var d := Detail(pillars[k].expected, pillars[k].factual, pillars[k].weight / n);
      ghost var before := r;
      r, total, todo := r[k := d], total + d.weight, todo - {k};
      assert r == goal - todo;
      assert r - {k} == before;
      SumWithout(r, Weight, k);
    }
    assert goal - {} == goal;
  }

  /** The backward fold: the points link up, so it never fails, and it stops at the
      epoch's first period, which has started. */
  method GeneratePointFromLower(lower: PeriodPoints, m: Momentum, epoch: nat) returns (point: Point)
    requires lower.Valid() && Runs(lower.rules.tk, m)
    requires HasStarted(lower.rules.tk, m, FirstPeriod(lower.rules.tk, epoch))
    modifies lower
    ensures lower.Valid()
    ensures point == EpochPoint(lower.rules, m, epoch)
  {
    hide PeriodPoint, Joined, Sum, HasStarted, StartBlock, EndBlock;
    var rules := lower.rules;
    var start, last := FirstPeriod(rules.tk, epoch), LastPeriod(rules.tk, epoch);
    var endBlock := EndBlock(rules.tk, m, last);
    var result, numPresent, i := Point(endBlock, endBlock, map[], 0), 0, last + 1;
    StartIsPreviousEnd(rules.tk, m, last);
    while true
      invariant start < i <= last + 1 && lower.Valid()
      invariant result.prev == StartBlock(rules.tk, m, i) && result.end == endBlock
      invariant result.pillars == Folded(rules, m, i, last + 1) && numPresent == Present(rules.tk, m, i, last + 1)
      decreases i
    {
      i := i - 1;
      var p := lower.GetPoint(m, i);
      StartIsPreviousEnd(rules.tk, m, i);
      if p == None {
        UnstartedIsEmpty(rules.tk, m, i);
        continue;
      }
      numPresent := numPresent + 1;
      PointEnds(rules, m, i);
      var ok;
      ok, result := LeftAppend(result, p.value);
      assert ok;
      if i == start {
        break;
      }
    }
    PresentBounds(rules.tk, m, start, last + 1);
    var pillars, total := AverageWeights(result.pillars, numPresent);
    point := Point(result.prev, result.end, pillars, total);
  }

  lemma StartIsPreviousEnd(tk: Ticker, m: Momentum, i: nat)
    requires Runs(tk, m)
    ensures StartBlock(tk, m, i + 1) == EndBlock(tk, m, i)
  {
  }

  lemma PointEnds(rules: Rules, m: Momentum, i: nat)
    requires Runs(rules.tk, m)
    ensures var p := PeriodPoint(rules, m, i); p.prev == StartBlock(rules.tk, m, i) && p.end == EndBlock(rules.tk, m, i)
  {
  }

  // ---- The store of epoch points ----

  /** What two chains with the same head of a late period share. */
  lemma {:induction false} SameHeads(rules: Rules, m: Momentum, n: Momentum, i: nat, last: nat)
    requires Runs(rules.tk, m) && Runs(rules.tk, n) && i <= last
    requires EndBlock(rules.tk, m, last) == EndBlock(rules.tk, n, last)
    ensures EndBlock(rules.tk, m, i) == EndBlock(rules.tk, n, i) && PeriodPoint(rules, m, i) == PeriodPoint(rules, n, i)
    ensures StartBlock(rules.tk, m, i) == StartBlock(rules.tk, n, i)
    ensures Start(rules.tk, m, i) == Start(rules.tk, n, i)
  {
    hide PeriodPoint;
    EndBlockNests(rules.tk, m, i, last);
    EndBlockNests(rules.tk, n, i, last);
    PointOfEndBlock(rules, m, n, i);
    if i > 0 {
      EndBlockNests(rules.tk, m, i - 1, last);
      EndBlockNests(rules.tk, n, i - 1, last);
    }
  }

  lemma StartedEarlier(tk: Ticker, m: Momentum, i: nat, j: nat)
    requires i <= j && HasStarted(tk, m, j)
    ensures HasStarted(tk, m, i)
  {
    assert tk.interval * i <= tk.interval * j;
  }

  lemma {:induction false} SameFold(rules: Rules, m: Momentum, n: Momentum, i: nat, end: nat)
    requires Runs(rules.tk, m) && Runs(rules.tk, n) && i <= end && end > 0
    requires EndBlock(rules.tk, m, end - 1) == EndBlock(rules.tk, n, end - 1)
    requires HasStarted(rules.tk, m, end - 1) && HasStarted(rules.tk, n, end - 1)
    ensures Folded(rules, m, i, end) == Folded(rules, n, i, end)
    ensures Present(rules.tk, m, i, end) == Present(rules.tk, n, i, end) == end - i
    decreases end - i
  {
    hide PeriodPoint, Joined, HasStarted, EndBlock;
    if i < end {
      SameFold(rules, m, n, i + 1, end);
      SameHeads(rules, m, n, i, end - 1);
      StartedEarlier(rules.tk, m, i, end - 1);
      StartedEarlier(rules.tk, n, i, end - 1);
    }
  }

  /** A chain on which all the periods have started expects at least the slots of
      the last one more than a chain on which that one has not. */
  lemma {:induction false} ExpectsMore(rules: Rules, m: Momentum, n: Momentum, i: nat, end: nat, name: string)
    requires Runs(rules.tk, m) && Runs(rules.tk, n) && i < end
    requires EndBlock(rules.tk, m, end - 1) == EndBlock(rules.tk, n, end - 1)
    requires !HasStarted(rules.tk, m, end - 1) && HasStarted(rules.tk, n, end - 1)
    ensures Added(rules, n, i, end, name).expected >=
            Added(rules, m, i, end, name).expected + At(PeriodPoint(rules, n, end - 1).pillars, name).expected
    decreases end - i
  {
    hide PeriodPoint, HasStarted, EndBlock, At;
    SameHeads(rules, m, n, i, end - 1);
    StartedEarlier(rules.tk, n, i, end - 1);
    if i + 1 < end { ExpectsMore(rules, m, n, i + 1, end, name); }
  }

  lemma {:induction false} SlotsOfFirst(ps: seq<Producer>)
    requires ps != []
    ensures Slots(ps, ps[0].name) >= 1
  {
    if |ps| > 1 { SlotsOfFirst(ps[..|ps| - 1]); }
  }

  /** A stored epoch point answers for its end block. It is the point that would be
      regenerated exactly when the epoch's last period has started: regeneration
      leaves out periods that have not. */
  lemma {:induction false} StoredEpochIsCurrent(rules: Rules, m: Momentum, n: Momentum, epoch: nat)
    requires Runs(rules.tk, m) && Runs(rules.tk, n)
    requires HasStarted(rules.tk, m, FirstPeriod(rules.tk, epoch))
    requires IsFinished(rules.tk, n, LastPeriod(rules.tk, epoch))
    requires EndBlock(rules.tk, m, LastPeriod(rules.tk, epoch)) == EndBlock(rules.tk, n, LastPeriod(rules.tk, epoch))
    requires ElectionByTick(rules, n, LastPeriod(rules.tk, epoch)).producers != []
    ensures HasStarted(rules.tk, n, FirstPeriod(rules.tk, epoch))
    ensures EpochPoint(rules, n, epoch) == EpochPoint(rules, m, epoch) <==>
        HasStarted(rules.tk, m, LastPeriod(rules.tk, epoch))
  {
    var first, last := FirstPeriod(rules.tk, epoch), LastPeriod(rules.tk, epoch);
    assert HasStarted(rules.tk, n, last) by { assert rules.tk.interval * last <= rules.tk.interval * (last + 1); }
    StartedEarlier(rules.tk, n, first, last);
    if HasStarted(rules.tk, m, last) {
      StartedIsCurrent(rules, m, n, epoch);
    } else {
      UnstartedDiffers(rules, m, n, epoch);
    }
  }

  lemma {:induction false} StartedIsCurrent(rules: Rules, m: Momentum, n: Momentum, epoch: nat)
    requires Runs(rules.tk, m) && Runs(rules.tk, n)
    requires HasStarted(rules.tk, m, LastPeriod(rules.tk, epoch))
    requires HasStarted(rules.tk, n, LastPeriod(rules.tk, epoch))
    requires EndBlock(rules.tk, m, LastPeriod(rules.tk, epoch)) == EndBlock(rules.tk, n, LastPeriod(rules.tk, epoch))
    ensures HasStarted(rules.tk, m, FirstPeriod(rules.tk, epoch))
    ensures HasStarted(rules.tk, n, FirstPeriod(rules.tk, epoch))
    ensures EpochPoint(rules, n, epoch) == EpochPoint(rules, m, epoch)
  {
    hide PeriodPoint, Joined, HasStarted, EndBlock, StartBlock, Folded;
    var first, last := FirstPeriod(rules.tk, epoch), LastPeriod(rules.tk, epoch);
    StartedEarlier(rules.tk, n, first, last);
    StartedEarlier(rules.tk, m, first, last);
    SameFold(rules, m, n, first, last + 1);
    SameHeads(rules, m, n, first, last);
  }

  lemma {:induction false} UnstartedDiffers(rules: Rules, m: Momentum, n: Momentum, epoch: nat)
    requires Runs(rules.tk, m) && Runs(rules.tk, n)
    requires HasStarted(rules.tk, m, FirstPeriod(rules.tk, epoch))
    requires HasStarted(rules.tk, n, FirstPeriod(rules.tk, epoch))
    requires !HasStarted(rules.tk, m, LastPeriod(rules.tk, epoch))
    requires HasStarted(rules.tk, n, LastPeriod(rules.tk, epoch))
    requires EndBlock(rules.tk, m, LastPeriod(rules.tk, epoch)) == EndBlock(rules.tk, n, LastPeriod(rules.tk, epoch))
    requires ElectionByTick(rules, n, LastPeriod(rules.tk, epoch)).producers != []
    ensures EpochPoint(rules, n, epoch) != EpochPoint(rules, m, epoch)
  {
    hide PeriodPoint, HasStarted, EndBlock, Added, EpochPoint;
    var first, last := FirstPeriod(rules.tk, epoch), LastPeriod(rules.tk, epoch);
    var ps := ElectionByTick(rules, n, last).producers;
    SlotsOfFirst(ps);
    PeriodCounts(rules, n, last, ps[0].name);
    ElectionExactly(rules, n, last);
    ExpectsMore(rules, m, n, first, last + 1, ps[0].name);
    EpochReads(rules, m, epoch, ps[0].name);
    EpochReads(rules, n, epoch, ps[0].name);
  }

  /** Two periods to an epoch: a point stored by a chain whose second momentum ends
      the epoch, read after a rollback to genesis, where the second period has not begun. */
  lemma {:induction false} StoredEpochCanDiffer(rules: Rules, m: Momentum, n: Momentum, epoch: nat)
    requires rules.tk.interval > 0 && rules.tk.multiplier == 2 && rules.elect(m).producers != []
    requires m.Genesis? && n == Next(m, m.timestamp + 2 * rules.tk.interval, []) && epoch == 0
    ensures HasStarted(rules.tk, m, FirstPeriod(rules.tk, epoch))
    ensures IsFinished(rules.tk, n, LastPeriod(rules.tk, epoch))
    ensures EndBlock(rules.tk, m, LastPeriod(rules.tk, epoch)) == EndBlock(rules.tk, n, LastPeriod(rules.tk, epoch))
    ensures HasStarted(rules.tk, n, FirstPeriod(rules.tk, epoch))
    ensures EpochPoint(rules, n, epoch) != EpochPoint(rules, m, epoch)
  {
    hide EpochPoint;
    var first, last := FirstPeriod(rules.tk, epoch), LastPeriod(rules.tk, epoch);
    assert IsChain(n.prev) && Root(n) == Root(n.prev);
    assert End(rules.tk, n, last) == End(rules.tk, m, last) == n.timestamp;
    assert LastBefore(n, End(rules.tk, n, last)) == LastBefore(m, End(rules.tk, n, last)) == Some(m);
    var t := ProofTime(rules.tk, n, last);
    assert last == 1 && t == m.timestamp + 1;
    assert LastBefore(n, t) == LastBefore(m, t) == Some(m);
    UnstartedDiffers(rules, m, n, epoch);
  }

  lemma EpochEnds(rules: Rules, m: Momentum, epoch: nat)
    requires Runs(rules.tk, m) && HasStarted(rules.tk, m, FirstPeriod(rules.tk, epoch))
    ensures EpochPoint(rules, m, epoch).end == EndBlock(rules.tk, m, LastPeriod(rules.tk, epoch))
  {
  }

  lemma FinishedHasStarted(tk: Ticker, m: Momentum, i: nat)
    requires IsFinished(tk, m, i)
    ensures HasStarted(tk, m, i)
  {
    assert tk.interval * i <= tk.interval * (i + 1);
  }

  /** A stored epoch point was generated after the epoch had ended. */
  ghost predicate GenuineEpoch(rules: Rules, epoch: nat, n: Momentum, point: Point) {
    && Runs(rules.tk, n) && HasStarted(rules.tk, n, LastPeriod(rules.tk, epoch)) &&
        HasStarted(rules.tk, n, FirstPeriod(rules.tk, epoch))
    && point == EpochPoint(rules, n, epoch)
  }

  class EpochPoints {
    const lower: PeriodPoints
    var stored: map<nat, Point>

    ghost predicate Valid()
      reads this, lower
    {
      lower.Valid() && forall epoch :: epoch in stored ==>
          exists n :: GenuineEpoch(lower.rules, epoch, n, stored[epoch])
    }

    constructor (lower: PeriodPoints)
      requires lower.Valid()
      ensures Valid() && this.lower == lower && stored == map[]
    {
      this.lower, stored := lower, map[];
    }

    /** The epoch's head. */
    function Last(m: Momentum, epoch: nat): Momentum
      requires Runs(lower.rules.tk, m)
    {
      EndBlock(lower.rules.tk, m, LastPeriod(lower.rules.tk, epoch))
    }

    /** Nil before the epoch; once its last period has started, the regenerated point;
        in between, the point of a chain with the same end block. */
    method GetPoint(m: Momentum, epoch: nat) returns (point: Option<Point>)
      requires Valid() && Runs(lower.rules.tk, m)
      modifies this, lower
      ensures Valid()
      ensures point.Some? <==> HasStarted(lower.rules.tk, m, FirstPeriod(lower.rules.tk, epoch))
      ensures point.Some? && HasStarted(lower.rules.tk, m, LastPeriod(lower.rules.tk, epoch)) ==>
          point.value == EpochPoint(lower.rules, m, epoch)
      ensures point.Some? ==> point.value.end == EndBlock(lower.rules.tk, m, LastPeriod(lower.rules.tk, epoch))
      ensures point.Some? && point.value != EpochPoint(lower.rules, m, epoch) ==>
          epoch in old(stored) && point.value == old(stored)[epoch]
      ensures point == None <==>
              m.timestamp < Root(m).timestamp + lower.rules.tk.interval * (epoch * lower.rules.tk.multiplier)
      ensures stored == if point == None then old(stored)
                        else if Answers(old(stored), epoch, Last(m, epoch)) then old(stored)
                        else if m.timestamp >=
                                Root(m).timestamp + lower.rules.tk.interval * ((epoch + 1) * lower.rules.tk.multiplier)
                        then old(stored)[epoch := EpochPoint(lower.rules, m, epoch)]
                        else old(stored) - {epoch}
    {
      hide EpochPoint, EndBlock, StartBlock;
      var tk := lower.rules.tk;
      var last := LastPeriod(tk, epoch);
      if !HasStarted(tk, m, FirstPeriod(tk, epoch)) {
        return None;
      }
      var endBlock := EndBlock(tk, m, last);
      if epoch in stored {
        ghost var n :| GenuineEpoch(lower.rules, epoch, n, stored[epoch]);
        if stored[epoch].end != endBlock {
          stored := stored - {epoch};
        } else {
          EpochEnds(lower.rules, n, epoch);
          if HasStarted(tk, m, last) { StartedIsCurrent(lower.rules, m, n, epoch); }
          return Some(stored[epoch]);
        }
      }
      var built := GeneratePointFromLower(lower, m, epoch);
      EpochEnds(lower.rules, m, epoch);
      if IsFinished(tk, m, last) {
        FinishedHasStarted(tk, m, last);
        assert GenuineEpoch(lower.rules, epoch, m, built);
        stored := stored[epoch := built];
      }
      point := Some(built);
    }
  }
}
