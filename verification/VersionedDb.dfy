/** The versioned store: a live frontier database, one forward and one rollback
    patch per height, and past states rebuilt from the rollback patches. The
    specification is a chain of steps and the state after each of them. */
module VersionedDb {
  import opened Bytes
  import opened Patches

  datatype HashHeight = HashHeight(hash: Bytes, height: uint64)

  function Zeros(n: nat): (b: Bytes)
    ensures |b| == n
  {
    seq(n, i => 0)
  }

  const ZERO_HASH: Bytes := Zeros(32)
  const ZERO_ID := HashHeight(ZERO_HASH, 0)

  // ---- Frontier bookkeeping inside a database ----

  const FRONTIER_KEY: Bytes := [0]

  function HashKey(hash: Bytes): Bytes { [1] + hash }

  function EntryKey(height: uint64): Bytes { [2] + Uint64ToBytes(height) }

  predicate Reserved(k: Bytes) {
    k == FRONTIER_KEY || (k != [] && (k[0] == 1 || k[0] == 2))
  }

  lemma ReservedKeysDiffer(a: Bytes, b: Bytes, height: uint64)
    ensures Reserved(HashKey(a)) && HashKey(a) != FRONTIER_KEY && HashKey(a) != EntryKey(height)
    ensures HashKey(a) == HashKey(b) ==> a == b
  {
    assert HashKey(a)[0] == 1 && EntryKey(height)[0] == 2;
    assert HashKey(a)[1..] == a && HashKey(b)[1..] == b;
  }

  function Serialize(id: HashHeight): Bytes { id.hash + Uint64ToBytes(id.height) }

  function Deserialize(data: Bytes): HashHeight {
    if |data| < 8 then ZERO_ID
    else
      var height := BigEndianValue(data[|data| - 8..]);
      HashHeight(data[..|data| - 8], if height < TWO_64 then height else 0)
  }

  lemma SerializeRoundTrip(id: HashHeight)
    ensures Deserialize(Serialize(id)) == id
  {
    var data := Serialize(id);
    assert data[|data| - 8..] == Uint64ToBytes(id.height) && data[..|data| - 8] == id.hash;
    Uint64RoundTrip(id.height);
  }

  function SetFrontier(id: HashHeight, data: Bytes): Patch {
    [Put(FRONTIER_KEY, Serialize(id)), Put(HashKey(id.hash), Uint64ToBytes(id.height)), Put(EntryKey(id.height), data)]
  }

  function FrontierIdentifier(s: State): HashHeight {
    match Get(s, FRONTIER_KEY)
    case None => ZERO_ID
    case Some(data) => Deserialize(data)
  }

  function IdentifierByHash(s: State, hash: Bytes): Option<HashHeight> {
    match Get(s, HashKey(hash))
    case None => None
    case Some(data) =>
      var height := BigEndianValue(data);
      if height < TWO_64 then Some(HashHeight(hash, height)) else None
  }

  // ---- Chains: the specification ----

  /** One committed transaction: its identifier, its changes and its serialized form. */
  datatype Step = Step(id: HashHeight, changes: Patch, data: Bytes)

  type Chain = seq<Step>

  function StepPatch(step: Step): Patch { step.changes + SetFrontier(step.id, step.data) }

  function StateOf(chain: Chain): State {
    if chain == [] then map[]
    else Apply(StateOf(chain[..|chain| - 1]), StepPatch(chain[|chain| - 1]))
  }

  function Tip(chain: Chain): HashHeight {
    if chain == [] then ZERO_ID else chain[|chain| - 1].id
  }

  ghost predicate WellFormedStep(step: Step) {
    forall k :: k in Touched(step.changes) ==> !Reserved(k)
  }

  /** Consecutive heights from 1, no hash twice, changes outside the bookkeeping keys. */
  ghost predicate WellFormed(chain: Chain) {
    && (forall i :: 0 <= i < |chain| ==> chain[i].id.height == i + 1 && WellFormedStep(chain[i]))
    && (forall i, j :: 0 <= i < j < |chain| ==> chain[i].id.hash != chain[j].id.hash)
  }

  lemma WellFormedPrefix(chain: Chain, n: nat)
    requires WellFormed(chain) && n <= |chain|
    ensures WellFormed(chain[..n])
  {
  }

  lemma StepReads(s: State, step: Step, k: Bytes)
    requires WellFormedStep(step) && Reserved(k)
    ensures Get(Apply(s, StepPatch(step)), k) ==
            if k == FRONTIER_KEY then Some(Serialize(step.id))
            else if k == HashKey(step.id.hash) then Some(Uint64ToBytes(step.id.height))
            else if k == EntryKey(step.id.height) then Some(step.data)
            else Get(s, k)
  {
    var s1 := Apply(s, step.changes);
    var f := SetFrontier(step.id, step.data);
    ApplyConcat(s, step.changes, f);
    ApplyUntouched(s, step.changes, k);
    assert f[..2] == [f[0], f[1]] && f[..2][..1] == [f[0]] && f[..2][..1][..0] == [];
    assert Apply(s1, f[..2][..1]) == ApplyEntry(s1, f[0]);
    assert Apply(s1, f[..2]) == ApplyEntry(ApplyEntry(s1, f[0]), f[1]);
    assert Apply(s1, f) == ApplyEntry(ApplyEntry(ApplyEntry(s1, f[0]), f[1]), f[2]);
    assert HashKey(step.id.hash)[0] == 1 && EntryKey(step.id.height)[0] == 2;
  }

  /** The frontier key always names the last step. */
  lemma FrontierOfChain(chain: Chain)
    requires WellFormed(chain)
    ensures FrontierIdentifier(StateOf(chain)) == Tip(chain)
  {
    if chain != [] {
      var step := chain[|chain| - 1];
      StepReads(StateOf(chain[..|chain| - 1]), step, FRONTIER_KEY);
      SerializeRoundTrip(step.id);
    }
  }

  lemma {:induction false} HashKeyReads(chain: Chain, hash: Bytes)
    requires WellFormed(chain)
    ensures forall i :: 0 <= i < |chain| && chain[i].id.hash == hash ==>
              Get(StateOf(chain), HashKey(hash)) == Some(Uint64ToBytes(i + 1))
    ensures (forall i :: 0 <= i < |chain| ==> chain[i].id.hash != hash) ==>
              Get(StateOf(chain), HashKey(hash)) == None
  {
    if chain != [] {
      var n := |chain| - 1;
      WellFormedPrefix(chain, n);
      HashKeyReads(chain[..n], hash);
      StepReads(StateOf(chain[..n]), chain[n], HashKey(hash));
      ReservedKeysDiffer(hash, chain[n].id.hash, chain[n].id.height);
    }
  }

  ghost predicate OnChain(chain: Chain, id: HashHeight) {
    0 < id.height <= |chain| && chain[id.height - 1].id == id
  }

  /** The hash index answers an identifier exactly when it is on the chain. */
  lemma HashIndexExact(chain: Chain, id: HashHeight)
    requires WellFormed(chain)
    ensures IdentifierByHash(StateOf(chain), id.hash) == Some(id) <==> OnChain(chain, id)
  {
    HashKeyReads(chain, id.hash);
    if i :| 0 <= i < |chain| && chain[i].id.hash == id.hash {
      Uint64RoundTrip(i + 1);
      assert chain[i].id.height == i + 1;
      if OnChain(chain, id) { assert id.height - 1 == i; }
    }
  }

  // ---- The store ----

  datatype Store = Store(front: Raw, patches: map<nat, Patch>, rollbacks: map<nat, Patch>)

  const EMPTY_STORE := Store(map[], map[], map[])

  function ForwardPatches(chain: Chain): (ps: seq<Patch>)
    ensures |ps| == |chain|
  {
    seq(|chain|, i requires 0 <= i < |chain| => StepPatch(chain[i]))
  }

  /** Per height, what undoes the step on the state before it. */
  function RollbackPatches(chain: Chain): (ps: seq<Patch>)
    ensures |ps| == |chain|
  {
    if chain == [] then []
    else
      var n := |chain| - 1;
      RollbackPatches(chain[..n]) + [Rollback(StateOf(chain[..n]), StepPatch(chain[n]))]
  }

  lemma {:induction false} RollbackPatchAt(chain: Chain, h: nat)
    requires 1 <= h <= |chain|
    ensures RollbackPatches(chain)[h - 1] == Rollback(StateOf(chain[..h - 1]), StepPatch(chain[h - 1]))
  {
    var n := |chain| - 1;
    if h <= n {
      RollbackPatchAt(chain[..n], h);
      assert chain[..n][..h - 1] == chain[..h - 1];
    }
  }

  function PatchAt(ps: seq<Patch>, h: nat): Patch
    requires 1 <= h <= |ps|
  {
    ps[h - 1]
  }

  /** A patch log keyed by height. */
  function LogOf(ps: seq<Patch>): (log: map<nat, Patch>)
    ensures forall h :: h in log <==> 1 <= h <= |ps|
    ensures forall h :: 1 <= h <= |ps| ==> log[h] == PatchAt(ps, h)
  {
    map h: nat | 1 <= h <= |ps| :: PatchAt(ps, h)
  }

  lemma LogAppend(ps: seq<Patch>, p: Patch)
    ensures LogOf(ps + [p]) == LogOf(ps)[|ps| + 1 := p]
  {
  }

  lemma LogDropLast(ps: seq<Patch>)
    requires ps != []
    ensures LogOf(ps) - {|ps|} == LogOf(ps[..|ps| - 1])
  {
  }

  /** Both logs cover exactly heights 1 to the frontier. */
  ghost predicate Logged(store: Store, chain: Chain) {
    && store.patches == LogOf(ForwardPatches(chain))
    && store.rollbacks == LogOf(RollbackPatches(chain))
  }

  ghost predicate Represents(store: Store, chain: Chain) {
    WellFormed(chain) && Logged(store, chain) && Decode(store.front) == StateOf(chain)
  }

  /** The three writes of Add, with the rollback patch computed on what `db` answers. */
  function WriteStep(store: Store, db: State, step: Step): Store {
    var patch := StepPatch(step);
    var h := step.id.height;
    Store(RawApply(store.front, patch), store.patches[h := patch], store.rollbacks[h := Rollback(db, patch)])
  }

  /** Pop replays the rollback patch of the live height and drops both patches. */
  function PopStep(store: Store): Store
    requires FrontierIdentifier(Decode(store.front)).height in store.rollbacks
  {
    var h := FrontierIdentifier(Decode(store.front)).height;
    Store(RawApply(store.front, store.rollbacks[h]), store.patches - {h}, store.rollbacks - {h})
  }

  lemma ForwardAppend(chain: Chain, step: Step)
    ensures ForwardPatches(chain + [step]) == ForwardPatches(chain) + [StepPatch(step)]
  {
  }

  lemma RollbackAppend(chain: Chain, step: Step)
    ensures RollbackPatches(chain + [step]) == RollbackPatches(chain) + [Rollback(StateOf(chain), StepPatch(step))]
  {
    assert (chain + [step])[..|chain|] == chain;
  }

  lemma AddLogged(store: Store, chain: Chain, step: Step)
    requires Logged(store, chain) && step.id.height == |chain| + 1
    ensures Logged(WriteStep(store, StateOf(chain), step), chain + [step])
  {
    hide StateOf, StepPatch, Rollback, RawApply, ForwardPatches, RollbackPatches, LogOf;
    ForwardAppend(chain, step);
    RollbackAppend(chain, step);
    LogAppend(ForwardPatches(chain), StepPatch(step));
    LogAppend(RollbackPatches(chain), Rollback(StateOf(chain), StepPatch(step)));
  }

  lemma AddRepresents(store: Store, chain: Chain, step: Step)
    requires Represents(store, chain) && WellFormed(chain + [step])
    ensures Represents(WriteStep(store, Decode(store.front), step), chain + [step])
  {
    var longer := chain + [step];
    assert longer[|chain|] == step && longer[..|chain|] == chain;
    AddLogged(store, chain, step);
    RawApplyDecodes(store.front, StepPatch(step));
  }

  lemma PopLogged(store: Store, chain: Chain)
    requires Logged(store, chain) && chain != []
    ensures Logged(store.(patches := store.patches - {|chain|}, rollbacks := store.rollbacks - {|chain|}),
        chain[..|chain| - 1])
  {
    var shorter := chain[..|chain| - 1];
    assert ForwardPatches(shorter) == ForwardPatches(chain)[..|shorter|];
    LogDropLast(ForwardPatches(chain));
    LogDropLast(RollbackPatches(chain));
    assert RollbackPatches(shorter) == RollbackPatches(chain)[..|shorter|];
  }

  lemma PopRepresents(store: Store, chain: Chain)
    requires Represents(store, chain) && chain != []
    ensures FrontierIdentifier(Decode(store.front)).height == |chain| && |chain| in store.rollbacks
    ensures Represents(PopStep(store), chain[..|chain| - 1])
  {
    var n := |chain|;
    FrontierOfChain(chain);
    WellFormedPrefix(chain, n - 1);
    PopLogged(store, chain);
    RawApplyDecodes(store.front, store.rollbacks[n]);
    RollbackUndoes(StateOf(chain[..n - 1]), StepPatch(chain[n - 1]));
  }

  datatype Operation = AddOp(step: Step) | PopOp

  /** The effect of an operation on the chain; Add is made on the live frontier. */
  function ChainAfter(chain: Chain, op: Operation): Chain {
    match op
    case AddOp(step) => chain + [step]
    case PopOp => if chain == [] then chain else chain[..|chain| - 1]
  }

  function StoreAfter(store: Store, op: Operation): Store {
    match op
    case AddOp(step) => WriteStep(store, Decode(store.front), step)
    case PopOp => if FrontierIdentifier(Decode(store.front)).height in store.rollbacks then PopStep(store) else store
  }

  function RunStore(store: Store, ops: seq<Operation>): Store {
    if ops == [] then store else StoreAfter(RunStore(store, ops[..|ops| - 1]), ops[|ops| - 1])
  }

  function RunChain(chain: Chain, ops: seq<Operation>): Chain {
    if ops == [] then chain else ChainAfter(RunChain(chain, ops[..|ops| - 1]), ops[|ops| - 1])
  }

  ghost predicate LegalRun(chain: Chain, ops: seq<Operation>) {
    forall n :: 0 <= n <= |ops| ==> WellFormed(RunChain(chain, ops[..n]))
  }

  /** Over every run of Adds and Pops the store stays exactly the one of the
      chain the run spells: rollback entries cover heights 1 to the frontier. */
  lemma OperationRepresents(store: Store, chain: Chain, op: Operation)
    requires Represents(store, chain) && WellFormed(ChainAfter(chain, op))
    ensures Represents(StoreAfter(store, op), ChainAfter(chain, op))
  {
    match op
    case AddOp(step) => AddRepresents(store, chain, step);
    case PopOp =>
      FrontierOfChain(chain);
      if chain != [] { PopRepresents(store, chain); }
  }

  lemma {:induction false} RunRepresents(store: Store, chain: Chain, ops: seq<Operation>)
    requires Represents(store, chain) && LegalRun(chain, ops)
    ensures Represents(RunStore(store, ops), RunChain(chain, ops))
  {
    if ops != [] {
      var n := |ops| - 1;
      assert forall m :: 0 <= m <= n ==> ops[..n][..m] == ops[..m];
      RunRepresents(store, chain, ops[..n]);
      assert ops[..|ops|] == ops;
      OperationRepresents(RunStore(store, ops[..n]), RunChain(chain, ops[..n]), ops[n]);
    }
  }

  // ---- n Adds followed by n Pops ----

  function Pops(n: nat): (ops: seq<Operation>)
    ensures |ops| == n
  {
    seq(n, _ => PopOp)
  }

  function Adds(steps: seq<Step>): (ops: seq<Operation>)
    ensures |ops| == |steps|
  {
    seq(|steps|, i requires 0 <= i < |steps| => AddOp(steps[i]))
  }

  lemma {:induction false} AddsExtend(chain: Chain, steps: seq<Step>)
    ensures RunChain(chain, Adds(steps)) == chain + steps
  {
    var ops := Adds(steps);
    if steps != [] {
      assert ops[..|ops| - 1] == Adds(steps[..|steps| - 1]);
      AddsExtend(chain, steps[..|steps| - 1]);
    }
  }

  lemma {:induction false} PopsShorten(chain: Chain, n: nat)
    requires n <= |chain|
    ensures RunChain(chain, Pops(n)) == chain[..|chain| - n]
  {
    if n > 0 {
      assert Pops(n)[..n - 1] == Pops(n - 1);
      PopsShorten(chain, n - 1);
    } else {
      assert chain[..|chain|] == chain;
    }
  }

  lemma AddsAreLegal(chain: Chain, steps: seq<Step>)
    requires WellFormed(chain + steps)
    ensures LegalRun(chain, Adds(steps))
  {
    forall n | 0 <= n <= |steps| ensures WellFormed(RunChain(chain, Adds(steps)[..n])) {
      assert Adds(steps)[..n] == Adds(steps[..n]);
      AddsExtend(chain, steps[..n]);
      assert chain + steps[..n] == (chain + steps)[..|chain| + n];
      WellFormedPrefix(chain + steps, |chain| + n);
    }
  }

  lemma PopsAreLegal(chain: Chain, n: nat)
    requires WellFormed(chain) && n <= |chain|
    ensures LegalRun(chain, Pops(n))
  {
    forall m | 0 <= m <= n ensures WellFormed(RunChain(chain, Pops(n)[..m])) {
      assert Pops(n)[..m] == Pops(m);
      PopsShorten(chain, m);
      WellFormedPrefix(chain, |chain| - m);
    }
  }

  lemma AddsThenPopsIsIdentity(store: Store, chain: Chain, steps: seq<Step>)
    requires Represents(store, chain) && WellFormed(chain + steps)
    ensures var undone := RunStore(RunStore(store, Adds(steps)), Pops(|steps|));
            && Decode(undone.front) == Decode(store.front)
            && undone.patches == store.patches && undone.rollbacks == store.rollbacks
            && FrontierIdentifier(Decode(undone.front)) == Tip(chain)
  {
    var longer, grown := chain + steps, RunStore(store, Adds(steps));
    AddsAreLegal(chain, steps);
    AddsExtend(chain, steps);
    RunRepresents(store, chain, Adds(steps));
    PopsAreLegal(longer, |steps|);
    RunRepresents(grown, longer, Pops(|steps|));
    PopsShorten(longer, |steps|);
    assert longer[..|chain|] == chain;
    FrontierOfChain(chain);
  }

  // ---- Rebuilding a past state ----

  ghost function TouchedIn(chain: Chain, from: nat, to: nat): set<Bytes>
    requires from <= to <= |chain|
  {
    if from == to then {} else TouchedIn(chain, from, to - 1) + Touched(StepPatch(chain[to - 1]))
  }

  lemma {:induction false} TouchedInOfPrefix(chain: Chain, longer: Chain, from: nat, to: nat)
    requires chain <= longer && from <= to <= |chain|
    ensures TouchedIn(chain, from, to) == TouchedIn(longer, from, to)
  {
    if from < to { TouchedInOfPrefix(chain, longer, from, to - 1); }
  }

  lemma {:induction false} TouchedInSplit(chain: Chain, from: nat, mid: nat, to: nat)
    requires from <= mid <= to <= |chain|
    ensures TouchedIn(chain, from, to) == TouchedIn(chain, from, mid) + TouchedIn(chain, mid, to)
  {
    if mid < to { TouchedInSplit(chain, from, mid, to - 1); }
  }

  lemma {:induction false} StateUntouched(chain: Chain, from: nat, to: nat, k: Bytes)
    requires from <= to <= |chain| && k !in TouchedIn(chain, from, to)
    ensures Get(StateOf(chain[..to]), k) == Get(StateOf(chain[..from]), k)
  {
    if from < to {
      StateUntouched(chain, from, to - 1, k);
      assert chain[..to][..to - 1] == chain[..to - 1];
      ApplyUntouched(StateOf(chain[..to - 1]), StepPatch(chain[to - 1]), k);
    }
  }

  /** Rollback patches of heights from+1 to `to`, replayed upwards without override. */
  function Replay(o: Raw, chain: Chain, from: nat, to: nat): Raw
    requires from <= to <= |chain|
  {
    if from == to then o
    else Overlay(Replay(o, chain, from, to - 1), RollbackPatches(chain)[to - 1])
  }

  lemma {:induction false} ReplayStep(o: Raw, chain: Chain, from: nat, to: nat)
    requires from < to <= |chain|
    ensures Replay(o, chain, from, to) ==
            Overlay(Replay(o, chain, from, to - 1), Rollback(StateOf(chain[..to - 1]), StepPatch(chain[to - 1])))
  {
    RollbackPatchAt(chain, to);
  }

  /** However many patches touch a key, the replay keeps what it held at `from`. */
  lemma {:induction false} ReplayReads(o: Raw, chain: Chain, from: nat, to: nat, k: Bytes)
    requires from <= to <= |chain|
    ensures k in Replay(o, chain, from, to) <==> k in o || k in TouchedIn(chain, from, to)
    ensures k in o ==> Replay(o, chain, from, to)[k] == o[k]
    ensures k in TouchedIn(chain, from, to) && k !in o ==>
              Replay(o, chain, from, to)[k] == Exists(OrEmpty(Get(StateOf(chain[..from]), k)))
  {
    hide StateOf, StepPatch, Rollback, Overlay, Touched, RollbackPatches;
    if from < to {
      var before, s, p := Replay(o, chain, from, to - 1), StateOf(chain[..to - 1]), StepPatch(chain[to - 1]);
      ReplayReads(o, chain, from, to - 1, k);
      ReplayStep(o, chain, from, to);
      OverlayReads(before, s, p);
      if k !in TouchedIn(chain, from, to - 1) { StateUntouched(chain, from, to - 1, k); }
    }
  }

  /** What a rebuilt view answers: the overlay over the frontier snapshot. */
  function ViewState(overlay: Raw, snapshot: Raw): State {
    Decode(snapshot + overlay)
  }

  ghost predicate SameReads(s: State, t: State) {
    forall k :: OrEmpty(Get(s, k)) == OrEmpty(Get(t, k))
  }

  /** A view rebuilt from scratch reads exactly the state after height h, save
      that a key absent then and touched since reads as present but empty. */
  lemma {:induction false} RebuiltViewReads(store: Store, chain: Chain, h: nat, k: Bytes)
    requires Represents(store, chain) && h <= |chain|
    ensures var view := ViewState(Replay(map[], chain, h, |chain|), store.front);
            Get(view, k) == if k in TouchedIn(chain, h, |chain|)
                            then Some(OrEmpty(Get(StateOf(chain[..h]), k)))
                            else Get(StateOf(chain[..h]), k)
  {
    ReplayReads(map[], chain, h, |chain|, k);
    assert chain[..|chain|] == chain;
    var overlay := Replay(map[], chain, h, |chain|);
    if k !in overlay {
      StateUntouched(chain, h, |chain|, k);
      assert Get(ViewState(overlay, store.front), k) == Get(Decode(store.front), k);
    }
  }

  lemma {:induction false} RebuiltViewIsPastState(store: Store, chain: Chain, h: nat)
    requires Represents(store, chain) && h <= |chain|
    ensures SameReads(ViewState(Replay(map[], chain, h, |chain|), store.front), StateOf(chain[..h]))
    ensures forall k :: Get(ViewState(Replay(map[], chain, h, |chain|), store.front), k) == Get(StateOf(chain[..h]), k)
              <==> !(k in TouchedIn(chain, h, |chain|) && k !in StateOf(chain[..h]))
  {
    forall k ensures && OrEmpty(Get(ViewState(Replay(map[], chain, h, |chain|), store.front), k)) ==
        OrEmpty(Get(StateOf(chain[..h]), k))
                     && (Get(ViewState(Replay(map[], chain, h, |chain|), store.front), k) == Get(StateOf(chain[..h]), k)
                         <==> !(k in TouchedIn(chain, h, |chain|) && k !in StateOf(chain[..h])))
    {
      RebuiltViewReads(store, chain, h, k);
    }
  }

  // ---- Overlays that were cached and extended later ----

  /** Every value the overlay holds is what `past` reads. */
  ghost predicate Right(o: Raw, past: State) {
    forall k :: k in o ==> o[k] == Exists(OrEmpty(Get(past, k)))
  }

  /** An overlay that is right for `at` and holds every key touched between `at`
      and the snapshot rebuilds `at`, whatever else it holds. */
  lemma {:induction false} CoveredViewReads(o: Raw, snapshot: Raw, at: Chain, snap: Chain)
    requires at <= snap && Decode(snapshot) == StateOf(snap)
    requires Right(o, StateOf(at)) && TouchedIn(snap, |at|, |snap|) <= o.Keys
    ensures SameReads(ViewState(o, snapshot), StateOf(at))
  {
    assert snap[..|snap|] == snap && snap[..|at|] == at;
    forall k ensures OrEmpty(Get(ViewState(o, snapshot), k)) == OrEmpty(Get(StateOf(at), k)) {
      if k !in o {
        StateUntouched(snap, |at|, |snap|, k);
        assert Get(ViewState(o, snapshot), k) == Get(Decode(snapshot), k);
      }
    }
  }

  /** Two states read alike on every key the overlay lacks. */
  ghost predicate ReadsOutside(o: Raw, s: State, t: State) {
    forall k :: k !in o ==> OrEmpty(Get(s, k)) == OrEmpty(Get(t, k))
  }

  lemma {:induction false} ExtendedViewReads(store: Store, chain: Chain, o: Raw, from: nat, past: State, k: Bytes)
    requires Represents(store, chain) && from <= |chain| && Right(o, past)
    ensures var view := ViewState(Replay(o, chain, from, |chain|), store.front);
            OrEmpty(Get(view, k)) == OrEmpty(if k in o then Get(past, k) else Get(StateOf(chain[..from]), k))
  {
    var extended := Replay(o, chain, from, |chain|);
    ReplayReads(o, chain, from, |chain|, k);
    assert chain[..|chain|] == chain;
    if k !in extended {
      StateUntouched(chain, from, |chain|, k);
      assert Get(ViewState(extended, store.front), k) == Get(Decode(store.front), k);
    }
  }

  /** Exactly when a cached overlay, replayed from its recorded height (or not at
      all when the live chain is shorter), gives the past state: the live state
      at that height must still read like it on every key the overlay lacks. */
  lemma {:induction false} ExtendedViewExact(store: Store, chain: Chain, o: Raw, from: nat, past: State)
    requires Represents(store, chain) && from <= |chain| && Right(o, past)
    ensures SameReads(ViewState(Replay(o, chain, from, |chain|), store.front), past)
            <==> ReadsOutside(o, StateOf(chain[..from]), past)
  {
    hide Represents, StateOf, Replay, ViewState, Right;
    forall k ensures var view := ViewState(Replay(o, chain, from, |chain|), store.front);
                     OrEmpty(Get(view, k)) == OrEmpty(if k in o then Get(past, k) else Get(StateOf(chain[..from]), k))
    {
      ExtendedViewReads(store, chain, o, from, past, k);
    }
  }

  ghost predicate OneBranch(a: Chain, b: Chain) { a <= b || b <= a }

  function Min(a: nat, b: nat): nat { if a <= b then a else b }

  // ---- What goes wrong off the live branch ----

  lemma {:induction false} FreshOverlayIsRight(chain: Chain, from: nat, to: nat)
    requires from <= to <= |chain|
    ensures Right(Replay(map[], chain, from, to), StateOf(chain[..from]))
  {
    forall k | k in Replay(map[], chain, from, to)
      ensures Replay(map[], chain, from, to)[k] == Exists(OrEmpty(Get(StateOf(chain[..from]), k)))
    {
      ReplayReads(map[], chain, from, to, k);
    }
  }

  lemma {:induction false} StepTouchesHash(step: Step, h: Bytes)
    requires WellFormedStep(step)
    ensures HashKey(h) in Touched(StepPatch(step)) <==> h == step.id.hash
  {
    var p, f := StepPatch(step), SetFrontier(step.id, step.data);
    var n := |step.changes|;
    ReservedKeysDiffer(h, step.id.hash, step.id.height);
    assert p[n] == f[0] && p[n + 1] == f[1] && p[n + 2] == f[2];
    forall i | 0 <= i < n ensures p[i].key != HashKey(h) {
      assert p[i] == step.changes[i] && step.changes[i].key in Touched(step.changes);
    }
  }

  lemma {:induction false} TouchedInHash(chain: Chain, from: nat, to: nat, h: Bytes)
    requires WellFormed(chain) && from <= to <= |chain|
    ensures HashKey(h) in TouchedIn(chain, from, to) <==> exists j :: from <= j < to && chain[j].id.hash == h
  {
    hide StepPatch;
    if from < to {
      TouchedInHash(chain, from, to - 1, h);
      StepTouchesHash(chain[to - 1], h);
    }
  }

  lemma {:induction false} TouchedInHas(chain: Chain, from: nat, to: nat, j: nat)
    requires from <= j < to <= |chain|
    ensures Touched(StepPatch(chain[j])) <= TouchedIn(chain, from, to)
  {
    if j < to - 1 { TouchedInHas(chain, from, to - 1, j); }
  }

  /** The overlay holds the hash-index key of every step from `lo` up to `hi`. */
  ghost predicate HoldsSteps(o: Raw, chain: Chain, lo: nat, hi: nat)
    requires lo <= hi <= |chain|
  {
    forall j :: lo <= j < hi ==> HashKey(chain[j].id.hash) in o
  }

  /** Where it holds a step's hash-index key it holds all the keys the step touched. */
  ghost predicate WholeSteps(o: Raw, chain: Chain, lo: nat, hi: nat)
    requires lo <= hi <= |chain|
  {
    forall j :: lo <= j < hi && HashKey(chain[j].id.hash) in o ==> Touched(StepPatch(chain[j])) <= o.Keys
  }

  lemma {:induction false} HeldCovers(o: Raw, chain: Chain, lo: nat, hi: nat)
    requires lo <= hi <= |chain| && HoldsSteps(o, chain, lo, hi) && WholeSteps(o, chain, lo, hi)
    ensures TouchedIn(chain, lo, hi) <= o.Keys
  {
    if lo < hi { HeldCovers(o, chain, lo, hi - 1); }
  }

  /** An overlay that holds the live steps below its recorded height stays right and
      covers the live chain when it is replayed. */
  lemma {:induction false} HeldKeeps(o: Raw, chain: Chain, n: nat, from: nat)
    requires n <= from <= |chain| && Right(o, StateOf(chain[..n]))
    requires HoldsSteps(o, chain, n, from) && WholeSteps(o, chain, n, from)
    ensures var o' := Replay(o, chain, from, |chain|);
            Right(o', StateOf(chain[..n])) && TouchedIn(chain, n, |chain|) <= o'.Keys
  {
    hide StateOf, Replay, StepPatch;
    var o' := Replay(o, chain, from, |chain|);
    HeldCovers(o, chain, n, from);
    TouchedInSplit(chain, n, from, |chain|);
    forall k ensures k in TouchedIn(chain, n, |chain|) ==> k in o'
             ensures k in o' ==> o'[k] == Exists(OrEmpty(Get(StateOf(chain[..n]), k)))
    {
      ReplayReads(o, chain, from, |chain|, k);
      if k !in o { StateUntouched(chain, n, from, k); }
    }
  }

  /** A live step whose hash-index key the overlay lacks is read where it should not be. */
  lemma {:induction false} MissingStepMisreads(store: Store, chain: Chain, o: Raw, n: nat, from: nat, j: nat)
    requires Represents(store, chain) && n <= j < from <= |chain| && Right(o, StateOf(chain[..n]))
    requires HashKey(chain[j].id.hash) !in o
    ensures var view, k := ViewState(Replay(o, chain, from, |chain|), store.front), HashKey(chain[j].id.hash);
            OrEmpty(Get(view, k)) == Uint64ToBytes(j + 1) && Get(StateOf(chain[..n]), k) == None
  {
    hide StateOf, Replay, ViewState, Right;
    var hash := chain[j].id.hash;
    ExtendedViewReads(store, chain, o, from, StateOf(chain[..n]), HashKey(hash));
    WellFormedPrefix(chain, from);
    WellFormedPrefix(chain, n);
    HashKeyReads(chain[..from], hash);
    HashKeyReads(chain[..n], hash);
    assert chain[..from][j].id.hash == hash;
  }

  /** Exactly when a cached overlay, replayed from its recorded height, gives back the
      state after height n: it must hold the hash-index keys of the live steps between. */
  lemma {:induction false} HeldExactly(store: Store, chain: Chain, o: Raw, n: nat, from: nat)
    requires Represents(store, chain) && n <= from <= |chain|
    requires Right(o, StateOf(chain[..n])) && WholeSteps(o, chain, n, from)
    ensures SameReads(ViewState(Replay(o, chain, from, |chain|), store.front), StateOf(chain[..n]))
            <==> HoldsSteps(o, chain, n, from)
  {
    hide StateOf, Replay, ViewState, Right, Represents, WholeSteps;
    if HoldsSteps(o, chain, n, from) {
      HeldCovers(o, chain, n, from);
      forall k | k !in o ensures OrEmpty(Get(StateOf(chain[..from]), k)) == OrEmpty(Get(StateOf(chain[..n]), k)) {
        StateUntouched(chain, n, from, k);
      }
      ExtendedViewExact(store, chain, o, from, StateOf(chain[..n]));
    } else {
      var j :| n <= j < from && HashKey(chain[j].id.hash) !in o;
      MissingStepMisreads(store, chain, o, n, from, j);
    }
  }

  /** A hash names one step and all that came before it. */
  ghost predicate HashesName(a: Chain, b: Chain) {
    forall i, j :: 0 <= i < |a| && 0 <= j < |b| && a[i].id.hash == b[j].id.hash ==> i == j && a[..i + 1] == b[..j + 1]
  }

  lemma {:induction false} NamedAgree(a: Chain, b: Chain, n: nat)
    requires HashesName(a, b) && n <= |a| && n <= |b|
    ensures a[..n] == b[..n] <==> n == 0 || a[n - 1].id.hash == b[n - 1].id.hash
  {
    if n > 0 {
      assert a[..n] == b[..n] ==> a[..n][n - 1] == b[..n][n - 1];
      if a[n - 1].id.hash == b[n - 1].id.hash { assert a[..n - 1 + 1] == b[..n - 1 + 1]; }
    }
  }

  /** An overlay built on one chain and met again on another reads its own version
      if and only if one of the chains continues the other. */
  lemma {:induction false} OneBranchExactly(store: Store, at: Chain, recorded: Chain, chain: Chain)
    requires Represents(store, chain) && WellFormed(recorded) && HashesName(recorded, chain)
    requires at <= recorded && at <= chain
    ensures var o := Replay(map[], recorded, |at|, |recorded|);
            SameReads(ViewState(Replay(o, chain, Min(|recorded|, |chain|), |chain|), store.front), StateOf(at))
            <==> OneBranch(recorded, chain)
  {
    hide StateOf, Replay, ViewState, Right, StepPatch;
    var n, from := |at|, Min(|recorded|, |chain|);
    var o := Replay(map[], recorded, n, |recorded|);
    assert recorded[..n] == at == chain[..n];
    FreshOverlayIsRight(recorded, n, |recorded|);
    BuiltHolds(recorded, chain, n, o);
    HeldExactly(store, chain, o, n, from);
    NamedAgree(recorded, chain, from);
    assert recorded[..|recorded|] == recorded && chain[..|chain|] == chain;
  }

  /** Which live steps an overlay built on another chain holds: the shared ones. */
  lemma {:induction false} BuiltHolds(recorded: Chain, chain: Chain, n: nat, o: Raw)
    requires WellFormed(recorded) && HashesName(recorded, chain) && n <= |recorded| && n <= |chain|
    requires o == Replay(map[], recorded, n, |recorded|)
    ensures var from := Min(|recorded|, |chain|);
            && WholeSteps(o, chain, n, from)
            && (HoldsSteps(o, chain, n, from) <==>
                forall j :: n <= j < from ==> recorded[j].id.hash == chain[j].id.hash)
  {
    hide Replay, StepPatch;
    var from := Min(|recorded|, |chain|);
    forall j | n <= j < from
      ensures HashKey(chain[j].id.hash) in o <==> recorded[j].id.hash == chain[j].id.hash
      ensures HashKey(chain[j].id.hash) in o ==> Touched(StepPatch(chain[j])) <= o.Keys
    {
      BuiltHoldsStep(recorded, chain, n, o, j);
    }
  }

  lemma {:induction false} BuiltHoldsStep(recorded: Chain, chain: Chain, n: nat, o: Raw, j: nat)
    requires WellFormed(recorded) && HashesName(recorded, chain) && n <= j < |recorded| && j < |chain|
    requires o == Replay(map[], recorded, n, |recorded|)
    ensures HashKey(chain[j].id.hash) in o <==> recorded[j].id.hash == chain[j].id.hash
    ensures HashKey(chain[j].id.hash) in o ==> Touched(StepPatch(chain[j])) <= o.Keys
  {
    hide Replay, StepPatch;
    var h := chain[j].id.hash;
    ReplayReads(map[], recorded, n, |recorded|, HashKey(h));
    TouchedInHash(recorded, n, |recorded|, h);
    if recorded[j].id.hash == h {
      assert recorded[..j + 1][j] == chain[..j + 1][j];
      TouchedInHas(recorded, n, |recorded|, j);
      forall k | k in Touched(StepPatch(chain[j])) ensures k in o { ReplayReads(map[], recorded, n, |recorded|, k); }
    }
  }

  lemma {:induction false} BareStepTouches(step: Step, k: Bytes)
    requires step.changes == [] && !Reserved(k)
    ensures k !in Touched(StepPatch(step))
  {
    var f := SetFrontier(step.id, step.data);
    assert StepPatch(step) == f && |f| == 3;
    assert Reserved(f[0].key) && Reserved(f[1].key) && Reserved(f[2].key);
  }

  lemma {:induction false} OneWriteReads(s: State, step: Step, k: Bytes, v: Bytes)
    requires step.changes == [Put(k, v)] && !Reserved(k)
    ensures Get(Apply(s, StepPatch(step)), k) == Some(v)
  {
    var f := SetFrontier(step.id, step.data);
    ApplyConcat(s, step.changes, f);
    assert step.changes[..0] == [];
    assert Apply(s, step.changes) == s[k := v];
    BareStepTouches(step.(changes := []), k);
    assert StepPatch(step.(changes := [])) == f;
    ApplyUntouched(s[k := v], f, k);
  }

  lemma {:induction false} StaleAddTip(store: Store, chain: Chain, db: State, step: Step, c: Chain)
    requires Represents(store, chain) && WellFormedStep(step) && 1 <= step.id.height <= |chain|
    requires Represents(WriteStep(store, db, step), c)
    ensures StateOf(c) == Apply(StateOf(chain), StepPatch(step))
    ensures |c| == |chain| && Tip(c) == step.id
  {
    var store' := WriteStep(store, db, step);
    RawApplyDecodes(store.front, StepPatch(step));
    assert |chain| in store'.patches && |chain| + 1 !in store'.patches;
    StepReads(StateOf(chain), step, FRONTIER_KEY);
    FrontierOfChain(c);
    SerializeRoundTrip(step.id);
  }

  /** Add does not compare `previous` with the live frontier, only with the view
      at `previous`. A step on an older one leaves a store of no chain at all. */
  lemma {:induction false} StaleAddBreaks(store: Store, chain: Chain, db: State, step: Step, c: Chain)
    requires Represents(store, chain) && WellFormedStep(step)
    requires 1 <= step.id.height <= |chain|
    requires forall i :: 0 <= i < |chain| ==> chain[i].id.hash != step.id.hash
    ensures !Represents(WriteStep(store, db, step), c)
  {
    if Represents(WriteStep(store, db, step), c) {
      var hash := Tip(chain).hash;
      StaleAddTip(store, chain, db, step, c);
      assert Get(StateOf(chain), HashKey(hash)) == Some(Uint64ToBytes(|chain|)) by { HashKeyReads(chain, hash); }
      assert Get(StateOf(c), HashKey(hash)) == Some(Uint64ToBytes(|chain|)) by {
        ReservedKeysDiffer(hash, step.id.hash, step.id.height);
        StepReads(StateOf(chain), step, HashKey(hash));
      }
      HashKeyReads(c, hash);
      var i :| 0 <= i < |c| && c[i].id.hash == hash;
      Uint64BytesOrder(i + 1, |chain|);
      assert false;
    }
  }

  lemma {:induction false} SamePatchSameStep(a: Step, b: Step)
    requires StepPatch(a) == StepPatch(b)
    ensures a == b
  {
    var p, q, n := StepPatch(a), StepPatch(b), |a.changes|;
    assert |p| == n + 3 && |q| == |b.changes| + 3;
    assert a.changes == p[..n] && b.changes == q[..n];
    assert p[n] == Put(FRONTIER_KEY, Serialize(a.id)) && q[n] == Put(FRONTIER_KEY, Serialize(b.id));
    assert p[n + 2] == Put(EntryKey(a.id.height), a.data) && q[n + 2] == Put(EntryKey(b.id.height), b.data);
    SerializeRoundTrip(a.id);
    SerializeRoundTrip(b.id);
  }

  /** The last step added once more, on a view that answers its hash-index key: the
      rollback patch would write that key where it has to delete it. */
  lemma {:induction false} ReAddBreaks(store: Store, chain: Chain, db: State, step: Step, c: Chain)
    requires Represents(store, chain) && chain != [] && step == chain[|chain| - 1]
    requires Get(db, HashKey(step.id.hash)).Some?
    ensures !Represents(WriteStep(store, db, step), c)
  {
    if Represents(WriteStep(store, db, step), c) {
      StaleAddTip(store, chain, db, step, c);
      ReAddRollback(store, chain, db, step, c);
      assert false;
    }
  }

  lemma {:induction false} ReAddRollback(store: Store, chain: Chain, db: State, step: Step, c: Chain)
    requires |c| == |chain| > 0 && step.id.height == |chain|
    requires Represents(WriteStep(store, db, step), c)
    ensures Get(db, HashKey(step.id.hash)) == None
  {
    hide Represents, WriteStep, Decode, Logged;
    var n, p := |c|, StepPatch(step);
    var i := |step.changes| + 1;
    SameRollback(store, db, step, c);
    assert p[i].key == HashKey(step.id.hash);
    assert Rollback(db, p)[i] == Rollback(StateOf(c[..n - 1]), p)[i];
    WellFormedPrefix(c, n - 1);
    HashKeyReads(c[..n - 1], step.id.hash);
  }

  lemma {:induction false} SameRollback(store: Store, db: State, step: Step, c: Chain)
    requires c != [] && step.id.height == |c| && Represents(WriteStep(store, db, step), c)
    ensures WellFormed(c) && c[|c| - 1] == step
    ensures Rollback(db, StepPatch(step)) == Rollback(StateOf(c[..|c| - 1]), StepPatch(step))
  {
    hide StateOf, Decode, StepPatch, Rollback, WellFormed;
    var n, p := |c|, StepPatch(step);
    assert PatchAt(ForwardPatches(c), n) == p;
    SamePatchSameStep(c[n - 1], step);
    RollbackPatchAt(c, n);
    assert PatchAt(RollbackPatches(c), n) == Rollback(db, p);
  }

  /** The only step added once more leaves the store as it was. */
  lemma {:induction false} ReAddOnlyStep(store: Store, step: Step)
    requires Represents(store, [step])
    ensures Represents(WriteStep(store, map[], step), [step])
  {
    var p, chain := StepPatch(step), [step];
    assert chain[..0] == [] && StateOf(chain) == Apply(map[], p);
    RawApplyDecodes(store.front, p);
    ApplyTwice(map[], p);
    RollbackPatchAt(chain, 1);
    assert PatchAt(ForwardPatches(chain), 1) == p && PatchAt(RollbackPatches(chain), 1) == Rollback(map[], p);
  }

  /** What Get answers for an identifier of the chain, without caches. */
  ghost function DbAt(store: Store, chain: Chain, id: HashHeight): State
    requires id == ZERO_ID || OnChain(chain, id)
  {
    if id == ZERO_ID then map[]
    else if id == Tip(chain) then Decode(store.front)
    else ViewState(Replay(map[], chain, id.height, |chain|), store.front)
  }

  /** Add leaves the store of some chain exactly when `previous` is the live frontier,
      or when the only step of a chain is added once more. */
  lemma {:induction false} AddKeepsHistoryExactly(store: Store, chain: Chain, previous: HashHeight, step: Step)
    requires Represents(store, chain) && WellFormedStep(step)
    requires previous == ZERO_ID || OnChain(chain, previous)
    requires step.id.height == previous.height + 1
    requires forall i :: 0 <= i < |chain| && chain[i].id.hash == step.id.hash ==> chain[i] == step
    ensures (exists c :: Represents(WriteStep(store, DbAt(store, chain, previous), step), c))
            <==> previous == Tip(chain) || chain == [step]
  {
    hide StateOf, StepPatch, ViewState, Replay, Decode, Represents, WriteStep;
    var db := DbAt(store, chain, previous);
    if previous == Tip(chain) {
      AddOnTip(store, chain, step);
    } else if chain == [step] {
      ReAddOnlyStep(store, step);
    } else {
      forall c ensures !Represents(WriteStep(store, db, step), c) { StaleAddFails(store, chain, previous, step, c); }
    }
  }

  lemma {:induction false} AddOnTip(store: Store, chain: Chain, step: Step)
    requires Represents(store, chain) && WellFormedStep(step) && step.id.height == Tip(chain).height + 1
    requires forall i :: 0 <= i < |chain| && chain[i].id.hash == step.id.hash ==> chain[i] == step
    ensures Tip(chain) == ZERO_ID || OnChain(chain, Tip(chain))
    ensures Represents(WriteStep(store, DbAt(store, chain, Tip(chain)), step), chain + [step])
  {
    hide StateOf, StepPatch, ViewState, Replay, WriteStep;
    EmptyState(store, chain);
    TipIsOn(chain);
    AddRepresents(store, chain, step);
  }

  lemma TipIsOn(chain: Chain)
    requires WellFormed(chain)
    ensures if chain == [] then Tip(chain) == ZERO_ID else OnChain(chain, Tip(chain)) && Tip(chain).height == |chain|
  {
  }

  lemma EmptyState(store: Store, chain: Chain)
    requires Represents(store, chain)
    ensures chain == [] ==> Decode(store.front) == map[]
  {
  }

  lemma {:induction false} StaleAddFails(store: Store, chain: Chain, previous: HashHeight, step: Step, c: Chain)
    requires Represents(store, chain) && WellFormedStep(step) && chain != [step]
    requires previous == ZERO_ID || OnChain(chain, previous)
    requires previous != Tip(chain) && step.id.height == previous.height + 1
    requires forall i :: 0 <= i < |chain| && chain[i].id.hash == step.id.hash ==> chain[i] == step
    ensures !Represents(WriteStep(store, DbAt(store, chain, previous), step), c)
  {
    hide StateOf, StepPatch, ViewState, Replay, Decode, Represents, WriteStep;
    var n, db := |chain|, DbAt(store, chain, previous);
    BelowTip(store, chain, previous);
    if Represents(WriteStep(store, db, step), c) {
      if forall i :: 0 <= i < n ==> chain[i].id.hash != step.id.hash {
        StaleAddBreaks(store, chain, db, step, c);
      } else {
        StaleAddHeight(store, chain, db, step, c);
        assert chain[n - 1] == step;
        assert chain[..n] == chain;
        StepTouchesHash(step, step.id.hash);
        TouchedInHas(chain, previous.height, n, n - 1);
        RebuiltViewReads(store, chain, previous.height, HashKey(step.id.hash));
        ReAddBreaks(store, chain, db, step, c);
      }
    }
  }

  lemma BelowTip(store: Store, chain: Chain, previous: HashHeight)
    requires Represents(store, chain) && previous != Tip(chain) && (previous == ZERO_ID || OnChain(chain, previous))
    ensures previous.height < |chain|
    ensures forall i :: 0 <= i < |chain| ==> chain[i].id.height == i + 1
  {
  }

  lemma {:induction false} StaleAddHeight(store: Store, chain: Chain, db: State, step: Step, c: Chain)
    requires Represents(store, chain) && WellFormedStep(step) && 1 <= step.id.height <= |chain|
    requires Represents(WriteStep(store, db, step), c)
    ensures step.id.height == |chain|
  {
    StaleAddTip(store, chain, db, step, c);
    assert c[|c| - 1].id.height == |c|;
  }
}
