/** The disk-backed manager: the versioned store behind two caches of rollback
    overlays. An overlay is one object shared by cache entries and by every view
    handed out for its identifier, and `Get` extends it in place. */
module LdbManager {
  import opened Bytes
  import opened Patches
  import opened VersionedDb

  const MAXIMUM_CACHE_HEIGHT_DIFFERENCE := 360

  class MemDb {
    var raw: Raw

    constructor ()
      ensures raw == map[]
    {
      raw := map[];
    }
  }

  datatype RollbackCache = RollbackCache(frontier: HashHeight, raw: MemDb)

  type Cache = map<HashHeight, RollbackCache>

  /** What `Get` returns: nil, an empty database, a snapshot of the frontier, or
      an overlay over such a snapshot. */
  datatype View = Missing | EmptyDb | Frontier(snapshot: Raw) | Historical(overlay: MemDb, snapshot: Raw)

  function Reads(v: View): State
    reads if v.Historical? then {v.overlay} else {}
  {
    match v
    case Missing => map[]
    case EmptyDb => map[]
    case Frontier(snapshot) => Decode(snapshot)
    case Historical(overlay, snapshot) => ViewState(overlay.raw, snapshot)
  }

  /** The view reads as the chain did at this height. */
  ghost predicate ReadsAt(v: View, chain: seq<Step>, height: nat)
    reads if v.Historical? then {v.overlay} else {}
  {
    SameReads(Reads(v), StateOf(chain[..Min(height, |chain|)]))
  }

  /** A historical view in circulation: the version it rebuilds and the chain its snapshot was taken on. */
  datatype Issued = Issued(overlay: MemDb, snapshot: Raw, at: Chain, snap: Chain)

  // ---- The invariant, over one picture of the heap ----

  /** The live chain, the chain of every identifier ever added, the identifier each
      overlay rebuilds, what each overlay holds now, the overlays once extended over
      live steps they lack, the views in circulation, and the two caches. */
  datatype Ledger = Ledger(
    chain: Chain, known: map<HashHeight, Chain>,
    owner: map<MemDb, HashHeight>, contents: map<MemDb, Raw>, stale: set<MemDb>, issued: set<Issued>,
    l1: Cache, l2: Cache)

  function Last(chain: Chain): Step
    requires chain != []
  {
    chain[|chain| - 1]
  }

  /** Every step of the chain is known with the chain up to it. */
  ghost predicate Traced(known: map<HashHeight, Chain>, chain: Chain) {
    forall n :: 0 <= n < |chain| ==> chain[n].id in known && known[chain[n].id] == chain[..n + 1]
  }

  /** An identifier names a chain, and a hash an identifier. */
  ghost predicate ChainsKnown(l: Ledger) {
    && (forall id :: id in l.known ==> WellFormed(l.known[id]) && l.known[id] != [] && Last(l.known[id]).id == id)
    && (forall id :: id in l.known ==> Traced(l.known, l.known[id]))
    && Traced(l.known, l.chain)
    && (forall a, b :: a in l.known && b in l.known && a.hash == b.hash ==> a == b)
  }

  ghost predicate Owned(l: Ledger, o: MemDb) {
    o in l.owner && o in l.contents && l.owner[o] in l.known
  }

  /** The version an overlay rebuilds. */
  ghost function At(l: Ledger, o: MemDb): Chain
    requires Owned(l, o)
  {
    l.known[l.owner[o]]
  }

  /** Holding a step's hash-index key means holding all the step touched. */
  ghost predicate WholeStep(raw: Raw, step: Step) {
    HashKey(step.id.hash) in raw ==> Touched(StepPatch(step)) <= raw.Keys
  }

  ghost predicate Whole(l: Ledger, raw: Raw) {
    forall id :: id in l.known && l.known[id] != [] ==> WholeStep(raw, Last(l.known[id]))
  }

  ghost predicate HashKnown(l: Ledger, h: Bytes) {
    exists id :: id in l.known && id.hash == h
  }

  ghost predicate OnlyKnown(l: Ledger, raw: Raw) {
    forall h :: HashKey(h) in raw ==> HashKnown(l, h)
  }

  ghost predicate OverlayOk(l: Ledger, o: MemDb) {
    && Owned(l, o) && (o !in l.stale ==> Right(l.contents[o], StateOf(At(l, o))))
    && Whole(l, l.contents[o]) && OnlyKnown(l, l.contents[o])
  }

  /** The overlay holds every key touched from its own version up to `upTo`. */
  ghost predicate Covers(l: Ledger, o: MemDb, upTo: Chain)
    requires Owned(l, o)
  {
    && At(l, o) <= upTo
    && (o !in l.stale ==> TouchedIn(upTo, |At(l, o)|, |upTo|) <= l.contents[o].Keys)
  }

  /** The overlay answers its own identifier as frontier. */
  ghost predicate NamesItself(l: Ledger, o: MemDb)
    requires Owned(l, o)
  {
    FRONTIER_KEY in l.contents[o] && l.contents[o][FRONTIER_KEY] == Exists(Serialize(l.owner[o]))
  }

  ghost predicate EntryOk(l: Ledger, id: HashHeight, e: RollbackCache) {
    && Owned(l, e.raw) && l.owner[e.raw] == id && NamesItself(l, e.raw)
    && e.frontier in l.known && Covers(l, e.raw, l.known[e.frontier])
  }

  ghost predicate CacheOk(l: Ledger, cache: Cache) {
    forall id :: id in cache ==> EntryOk(l, id, cache[id])
  }

  ghost predicate ViewOk(l: Ledger, v: Issued) {
    && Owned(l, v.overlay) && v.at == At(l, v.overlay)
    && Decode(v.snapshot) == StateOf(v.snap) && Covers(l, v.overlay, v.snap)
  }

  ghost predicate LedgerOk(l: Ledger) {
    && ChainsKnown(l) && l.stale <= l.owner.Keys
    && (forall o :: o in l.owner ==> OverlayOk(l, o))
    && (forall v :: v in l.issued ==> ViewOk(l, v))
    && CacheOk(l, l.l1) && CacheOk(l, l.l2)
  }

  lemma KnownHeight(l: Ledger, id: HashHeight)
    requires LedgerOk(l) && id in l.known
    ensures |l.known[id]| == id.height
  {
  }

  lemma KnownOnChain(l: Ledger, id: HashHeight)
    requires ChainsKnown(l) && OnChain(l.chain, id)
    ensures id in l.known && l.known[id] == l.chain[..id.height]
  {
    assert l.chain[id.height - 1].id == id;
  }

  /** Every view in circulation whose overlay is not stale reads the state it was
      asked for, however often the shared overlay was extended since. */
  lemma {:induction false} IssuedViewReads(l: Ledger, v: Issued)
    requires LedgerOk(l) && v in l.issued && v.overlay !in l.stale
    ensures Owned(l, v.overlay) && SameReads(ViewState(l.contents[v.overlay], v.snapshot), StateOf(v.at))
  {
    assert ViewOk(l, v) && OverlayOk(l, v.overlay);
    CoveredViewReads(l.contents[v.overlay], v.snapshot, v.at, v.snap);
  }

  // ---- Looking an overlay up ----

  ghost function Hit(l: Ledger, id: HashHeight): Option<RollbackCache> {
    if id in l.l1 then Some(l.l1[id]) else if id in l.l2 then Some(l.l2[id]) else None
  }

  /** The overlay `Get` starts from: the cached one, or a new one. */
  ghost predicate Starts(l: Ledger, id: HashHeight, o: MemDb) {
    match Hit(l, id)
    case Some(e) => o == e.raw
    case None => o !in l.owner
  }

  ghost function Recorded(l: Ledger, id: HashHeight): HashHeight {
    if Hit(l, id).Some? then Hit(l, id).value.frontier else id
  }

  ghost function WithFresh(l: Ledger, o: MemDb, id: HashHeight): Ledger {
    l.(owner := l.owner[o := id], contents := l.contents[o := map[]])
  }

  ghost function Opened(l: Ledger, id: HashHeight, o: MemDb): Ledger {
    if Hit(l, id).Some? then l else WithFresh(l, o, id)
  }

  lemma {:induction false} FreshOverlayKeeps(l: Ledger, o: MemDb, id: HashHeight)
    requires LedgerOk(l) && o !in l.owner && id in l.known
    ensures LedgerOk(WithFresh(l, o, id))
  {
    hide WellFormed, OverlayOk, ViewOk, EntryOk;
    var l' := WithFresh(l, o, id);
    forall p | p in l'.owner ensures OverlayOk(l', p) {
      if p == o {
        FreshOverlayOk(l, o, id);
      } else {
        OwnedIsThere(l, p);
        OverlaySame(l, l', p);
      }
    }
    forall v | v in l'.issued ensures ViewOk(l', v) { FreshKeepsView(l, o, id, v); }
    forall i | i in l.l1 ensures EntryOk(l', i, l.l1[i]) { FreshKeepsEntry(l, o, id, i, l.l1[i]); }
    forall i | i in l.l2 ensures EntryOk(l', i, l.l2[i]) { FreshKeepsEntry(l, o, id, i, l.l2[i]); }
  }

  lemma {:induction false} FreshKeepsView(l: Ledger, o: MemDb, id: HashHeight, v: Issued)
    requires ViewOk(l, v) && o !in l.owner
    ensures ViewOk(WithFresh(l, o, id), v)
  {
    hide TouchedIn, StateOf, Decode;
  }

  lemma {:induction false} FreshKeepsEntry(l: Ledger, o: MemDb, id: HashHeight, i: HashHeight, e: RollbackCache)
    requires EntryOk(l, i, e) && o !in l.owner
    ensures EntryOk(WithFresh(l, o, id), i, e)
  {
    hide TouchedIn;
  }

  lemma {:induction false} FreshOverlayOk(l: Ledger, o: MemDb, id: HashHeight)
    requires id in l.known
    ensures OverlayOk(WithFresh(l, o, id), o)
  {
  }

  /** Overlay facts only depend on the overlay's contents and on what is known. */
  lemma {:induction false} OverlaySame(l: Ledger, l': Ledger, o: MemDb)
    requires OverlayOk(l, o) && l'.known == l.known && o in l'.owner && o in l'.contents
    requires l'.owner[o] == l.owner[o] && l'.contents[o] == l.contents[o] && (o in l.stale ==> o in l'.stale)
    ensures OverlayOk(l', o)
  {
    hide StateOf, Right, WholeStep;
    forall h | HashKey(h) in l'.contents[o] ensures HashKnown(l', h) { assert HashKnown(l, h); }
  }

  /** What the lookup promises about the overlay it starts from. */
  lemma {:induction false} OpenedOk(l: Ledger, id: HashHeight, o: MemDb)
    requires LedgerOk(l) && OnChain(l.chain, id) && Starts(l, id, o)
    ensures LedgerOk(Opened(l, id, o)) && Owned(Opened(l, id, o), o) && Opened(l, id, o).owner[o] == id
    ensures At(Opened(l, id, o), o) == l.chain[..id.height]
    ensures Recorded(l, id) in l.known && Covers(Opened(l, id, o), o, l.known[Recorded(l, id)])
    ensures id.height <= Recorded(l, id).height
  {
    hide WellFormed, OverlayOk, ViewOk;
    KnownOnChain(l, id);
    KnownHeight(l, id);
    match Hit(l, id) {
      case Some(e) =>
        assert EntryOk(l, id, e);
      case None =>
        FreshOverlayKeeps(l, o, id);
        assert TouchedIn(l.known[id], id.height, id.height) == {};
    }
    KnownHeight(l, Recorded(l, id));
  }

  // ---- Extending it in place ----

  ghost function WithExtended(l: Ledger, o: MemDb, raw: Raw, clean: bool): Ledger {
    l.(contents := l.contents[o := raw], stale := if clean then l.stale else l.stale + {o})
  }

  /** The live steps are held whole or not at all. */
  lemma {:induction false} LiveWhole(l: Ledger, o: MemDb, lo: nat, hi: nat)
    requires ChainsKnown(l) && OverlayOk(l, o) && lo <= hi <= |l.chain|
    ensures WholeSteps(l.contents[o], l.chain, lo, hi)
  {
    hide StepPatch, WellFormed;
    forall j | lo <= j < hi && HashKey(l.chain[j].id.hash) in l.contents[o]
      ensures Touched(StepPatch(l.chain[j])) <= l.contents[o].Keys
    {
      assert l.known[l.chain[j].id] == l.chain[..j + 1];
      assert WholeStep(l.contents[o], Last(l.known[l.chain[j].id]));
    }
  }

  /** A known identifier with the hash of a live step is that step's. */
  lemma {:induction false} LiveHash(l: Ledger, id: HashHeight, j: nat)
    requires ChainsKnown(l) && id in l.known && j < |l.chain| && l.chain[j].id.hash == id.hash
    ensures l.known[id] == l.chain[..j + 1] && Last(l.known[id]) == l.chain[j]
  {
    hide WellFormed;
    assert l.known[l.chain[j].id] == l.chain[..j + 1];
  }

  lemma KnownLast(l: Ledger, id: HashHeight)
    requires ChainsKnown(l) && id in l.known
    ensures l.known[id] != [] && Last(l.known[id]).id == id
  {
  }

  lemma {:induction false} ReplayWhole(l: Ledger, o: Raw, from: nat, id: HashHeight)
    requires ChainsKnown(l) && WellFormed(l.chain) && Whole(l, o) && from <= |l.chain| && id in l.known
    requires l.known[id] != []
    ensures WholeStep(Replay(o, l.chain, from, |l.chain|), Last(l.known[id]))
  {
    hide ChainsKnown, StepPatch, Replay, WellFormed, StateOf, TouchedIn;
    var raw, step := Replay(o, l.chain, from, |l.chain|), Last(l.known[id]);
    KnownLast(l, id);
    assert WholeStep(o, step);
    ReplayReads(o, l.chain, from, |l.chain|, HashKey(id.hash));
    TouchedInHash(l.chain, from, |l.chain|, id.hash);
    if HashKey(id.hash) in raw && HashKey(id.hash) !in o {
      var j :| from <= j < |l.chain| && l.chain[j].id.hash == id.hash;
      LiveHash(l, id, j);
      TouchedInHas(l.chain, from, |l.chain|, j);
    }
    forall k | k in Touched(StepPatch(step)) && HashKey(id.hash) in raw ensures k in raw {
      ReplayReads(o, l.chain, from, |l.chain|, k);
    }
  }

  lemma {:induction false} ReplayOnlyKnown(l: Ledger, o: Raw, from: nat)
    requires ChainsKnown(l) && WellFormed(l.chain) && OnlyKnown(l, o) && from <= |l.chain|
    ensures OnlyKnown(l, Replay(o, l.chain, from, |l.chain|))
  {
    hide StepPatch, Replay, WellFormed, StateOf;
    forall h | HashKey(h) in Replay(o, l.chain, from, |l.chain|) ensures HashKnown(l, h) {
      ReplayReads(o, l.chain, from, |l.chain|, HashKey(h));
      TouchedInHash(l.chain, from, |l.chain|, h);
      if HashKey(h) !in o {
        var j :| from <= j < |l.chain| && l.chain[j].id.hash == h;
        assert l.chain[j].id in l.known;
      }
    }
  }

  lemma {:induction false} ExtendedOverlayOk(l: Ledger, o: MemDb, from: nat, clean: bool)
    requires ChainsKnown(l) && WellFormed(l.chain) && OverlayOk(l, o)
    requires At(l, o) <= l.chain && |At(l, o)| <= from <= |l.chain|
    requires clean ==> o !in l.stale && HoldsSteps(l.contents[o], l.chain, |At(l, o)|, from)
    ensures var l' := WithExtended(l, o, Replay(l.contents[o], l.chain, from, |l.chain|), clean);
            OverlayOk(l', o) && Covers(l', o, l.chain)
  {
    hide WellFormed, Replay, StateOf, Right, WholeStep, TouchedIn;
    var raw, n := Replay(l.contents[o], l.chain, from, |l.chain|), |At(l, o)|;
    var l' := WithExtended(l, o, raw, clean);
    assert l.chain[..n] == At(l, o);
    LiveWhole(l, o, n, from);
    if clean { HeldKeeps(l.contents[o], l.chain, n, from); }
    forall id | id in l'.known && l'.known[id] != [] ensures WholeStep(raw, Last(l'.known[id])) {
      ReplayWhole(l, l.contents[o], from, id);
    }
    ReplayOnlyKnown(l, l.contents[o], from);
    forall h | HashKey(h) in raw ensures HashKnown(l', h) { assert HashKnown(l, h); }
  }

  /** Contents that only grow keep cache entries and views. */
  lemma {:induction false} GrowthKeepsEntry(l: Ledger, o: MemDb, raw: Raw, clean: bool, id: HashHeight,
          e: RollbackCache)
    requires EntryOk(l, id, e) && Owned(l, o)
    requires forall k :: k in l.contents[o] ==> k in raw && raw[k] == l.contents[o][k]
    ensures EntryOk(WithExtended(l, o, raw, clean), id, e)
  {
    hide TouchedIn;
  }

  lemma {:induction false} GrowthKeepsView(l: Ledger, o: MemDb, raw: Raw, clean: bool, v: Issued)
    requires ViewOk(l, v) && Owned(l, o)
    requires forall k :: k in l.contents[o] ==> k in raw
    ensures ViewOk(WithExtended(l, o, raw, clean), v)
  {
    hide TouchedIn, StateOf, Decode;
  }

  /** Extending one overlay in place keeps every other overlay, cache entry and view. */
  lemma {:induction false} ExtensionKeeps(l: Ledger, o: MemDb, from: nat, clean: bool)
    requires LedgerOk(l) && WellFormed(l.chain) && Owned(l, o)
    requires At(l, o) <= l.chain && |At(l, o)| <= from <= |l.chain|
    requires clean ==> o !in l.stale && HoldsSteps(l.contents[o], l.chain, |At(l, o)|, from)
    ensures var l' := WithExtended(l, o, Replay(l.contents[o], l.chain, from, |l.chain|), clean);
            LedgerOk(l') && Covers(l', o, l.chain)
  {
    hide WellFormed, Replay, StateOf, Right, TouchedIn, EntryOk, ViewOk, OverlayOk, HoldsSteps;
    var raw := Replay(l.contents[o], l.chain, from, |l.chain|);
    var l' := WithExtended(l, o, raw, clean);
    assert OverlayOk(l, o);
    ExtendedOverlayOk(l, o, from, clean);
    forall k | k in l.contents[o] ensures k in raw && raw[k] == l.contents[o][k] {
      ReplayReads(l.contents[o], l.chain, from, |l.chain|, k);
    }
    forall p | p in l'.owner ensures OverlayOk(l', p) {
      assert OverlayOk(l, p);
      if p != o { OwnedIsThere(l, p); OverlaySame(l, l', p); }
    }
    forall v | v in l'.issued ensures ViewOk(l', v) { GrowthKeepsView(l, o, raw, clean, v); }
    forall i | i in l.l1 ensures EntryOk(l', i, l.l1[i]) { GrowthKeepsEntry(l, o, raw, clean, i, l.l1[i]); }
    forall i | i in l.l2 ensures EntryOk(l', i, l.l2[i]) { GrowthKeepsEntry(l, o, raw, clean, i, l.l2[i]); }
  }

  lemma OwnedIsThere(l: Ledger, o: MemDb)
    requires OverlayOk(l, o)
    ensures Owned(l, o)
  {
  }

  // ---- Serving a view ----

  ghost function From(l: Ledger, id: HashHeight): nat { Min(Recorded(l, id).height, |l.chain|) }

  /** The cached overlay of `id`, if any, is not stale. */
  ghost predicate HitClean(l: Ledger, id: HashHeight) {
    Hit(l, id).Some? ==> Hit(l, id).value.raw !in l.stale
  }

  /** It holds the live steps between its version and its recorded height. */
  ghost predicate HitHolds(l: Ledger, id: HashHeight) {
    match Hit(l, id)
    case None => true
    case Some(e) =>
      && e.raw in l.contents && id.height <= From(l, id)
      && HoldsSteps(l.contents[e.raw], l.chain, id.height, From(l, id))
  }

  /** The cached overlay of `id`, if any, was recorded on the live branch. */
  ghost predicate HitOnBranch(l: Ledger, id: HashHeight) {
    match Hit(l, id)
    case None => true
    case Some(e) => e.frontier in l.known && OneBranch(l.known[e.frontier], l.chain)
  }

  /** It was, this time and each time before. */
  ghost predicate OnBranch(l: Ledger, id: HashHeight) { HitClean(l, id) && HitOnBranch(l, id) }

  ghost function Held(l: Ledger, o: MemDb): Raw { if o in l.contents then l.contents[o] else map[] }

  ghost function Stretched(l: Ledger, id: HashHeight, o: MemDb): Ledger {
    var raw := Replay(Held(l, o), l.chain, From(l, id), |l.chain|);
    WithExtended(l, o, raw, HitClean(l, id) && HitHolds(l, id))
  }

  /** The entry goes to the cache its distance from the frontier calls for; any
      other entries of that cache may be evicted meanwhile. */
  ghost function Remembered(l: Ledger, id: HashHeight, o: MemDb, evicted: set<HashHeight>): Ledger {
    var entry := RollbackCache(Tip(l.chain), o);
    if |l.chain| - id.height < MAXIMUM_CACHE_HEIGHT_DIFFERENCE then l.(l1 := (l.l1 - evicted)[id := entry])
    else l.(l2 := (l.l2 - evicted)[id := entry])
  }

  ghost function Circulated(l: Ledger, id: HashHeight, o: MemDb, front: Raw): Ledger {
    l.(issued := l.issued + {Issued(o, front, l.chain[..Min(id.height, |l.chain|)], l.chain)})
  }

  /** Everything `Get` does for an identifier below the frontier. */
  ghost function Served(l: Ledger, id: HashHeight, o: MemDb, evicted: set<HashHeight>, front: Raw): Ledger {
    Circulated(Remembered(Stretched(Opened(l, id, o), id, o), id, o, evicted), id, o, front)
  }

  /** Opening an overlay does not change what is looked up. */
  lemma OpenedLooks(l: Ledger, id: HashHeight, o: MemDb)
    requires LedgerOk(l) && OnChain(l.chain, id) && Starts(l, id, o)
    ensures var l' := Opened(l, id, o);
            && Hit(l', id) == Hit(l, id) && From(l', id) == From(l, id) && Recorded(l', id) == Recorded(l, id)
            && (HitClean(l', id) <==> HitClean(l, id)) && (HitHolds(l', id) <==> HitHolds(l, id))
            && l'.chain == l.chain && l'.stale == l.stale
  {
  }

  /** A fresh overlay starts at its own height, where there is nothing to hold. */
  lemma {:induction false} StartHolds(l: Ledger, id: HashHeight, o: MemDb)
    requires LedgerOk(l) && OnChain(l.chain, id) && Starts(l, id, o)
    ensures Owned(Opened(l, id, o), o) && id.height <= From(l, id) <= |l.chain|
    ensures HitHolds(l, id) <==> HoldsSteps(Opened(l, id, o).contents[o], l.chain, id.height, From(l, id))
    ensures HitClean(l, id) <==> o !in l.stale
  {
    hide LedgerOk, Covers, HoldsSteps;
    OpenedOk(l, id, o);
    if Hit(l, id) == None {
      assert From(l, id) == id.height;
      assert HoldsSteps(Opened(l, id, o).contents[o], l.chain, id.height, id.height) by {
        HoldsNothing(Opened(l, id, o).contents[o], l.chain, id.height);
      }
      StaleIsOwned(l, o);
    }
  }

  lemma HoldsNothing(o: Raw, chain: Chain, n: nat)
    requires n <= |chain|
    ensures HoldsSteps(o, chain, n, n)
  {
  }

  lemma StaleIsOwned(l: Ledger, o: MemDb)
    requires LedgerOk(l)
    ensures o in l.stale ==> o in l.owner
  {
  }

  lemma HitEntry(l: Ledger, id: HashHeight)
    requires LedgerOk(l) && Hit(l, id).Some?
    ensures EntryOk(l, id, Hit(l, id).value)
  {
  }

  /** After the extension the overlay answers its own identifier as frontier. */
  lemma {:induction false} StretchedNames(l: Ledger, id: HashHeight, o: MemDb)
    requires LedgerOk(l) && WellFormed(l.chain) && OnChain(l.chain, id) && id != Tip(l.chain) && Starts(l, id, o)
    ensures Owned(Opened(l, id, o), o) && NamesItself(Stretched(Opened(l, id, o), id, o), o)
  {
    hide LedgerOk, WellFormed, Replay, StateOf, Covers, HitHolds, HitClean;
    OpenedOk(l, id, o);
    OpenedLooks(l, id, o);
    var contents := Opened(l, id, o).contents[o];
    ReplayReads(contents, l.chain, From(l, id), |l.chain|, FRONTIER_KEY);
    if Hit(l, id).Some? { HitEntry(l, id); } else { FreshNames(l.chain, id.height); }
  }

  lemma {:induction false} FreshNames(chain: Chain, h: nat)
    requires WellFormed(chain) && 0 < h < |chain|
    ensures FRONTIER_KEY in TouchedIn(chain, h, |chain|)
    ensures OrEmpty(Get(StateOf(chain[..h]), FRONTIER_KEY)) == Serialize(chain[h - 1].id)
  {
    var past := chain[..h];
    assert past[..h - 1] + [past[h - 1]] == past;
    StepReads(StateOf(past[..h - 1]), past[h - 1], FRONTIER_KEY);
    var p := StepPatch(chain[h]);
    assert p[|chain[h].changes|].key == FRONTIER_KEY;
    TouchedInHas(chain, h, |chain|, h);
  }

  lemma {:induction false} StretchedOk(l: Ledger, id: HashHeight, o: MemDb)
    requires LedgerOk(l) && WellFormed(l.chain) && OnChain(l.chain, id) && Starts(l, id, o)
    ensures Owned(Opened(l, id, o), o)
    ensures var l' := Stretched(Opened(l, id, o), id, o); LedgerOk(l') && Covers(l', o, l.chain)
  {
    hide LedgerOk, WellFormed, Replay, Covers, HitHolds, HitClean, HoldsSteps;
    OpenedOk(l, id, o);
    OpenedLooks(l, id, o);
    StartHolds(l, id, o);
    ExtensionKeeps(Opened(l, id, o), o, From(l, id), HitClean(l, id) && HitHolds(l, id));
  }

  /** What does not look at caches or circulation. */
  lemma {:induction false} SameOverlays(l: Ledger, l': Ledger)
    requires LedgerOk(l) && l' == l.(issued := l'.issued, l1 := l'.l1, l2 := l'.l2)
    ensures ChainsKnown(l') && l'.stale <= l'.owner.Keys
    ensures forall o :: o in l'.owner ==> OverlayOk(l', o)
    ensures forall v :: ViewOk(l, v) ==> ViewOk(l', v)
    ensures forall id, e :: EntryOk(l, id, e) ==> EntryOk(l', id, e)
  {
    hide WellFormed, StateOf, Right, WholeStep, TouchedIn, Decode;
    forall o | o in l'.owner ensures OverlayOk(l', o) {
      OwnedIsThere(l, o);
      OverlaySame(l, l', o);
    }
    forall v | ViewOk(l, v) ensures ViewOk(l', v) {}
    forall id, e | EntryOk(l, id, e) ensures EntryOk(l', id, e) {}
  }

  lemma {:induction false} RememberedOk(l: Ledger, id: HashHeight, o: MemDb, evicted: set<HashHeight>)
    requires LedgerOk(l) && WellFormed(l.chain) && l.chain != [] && id.height <= |l.chain|
    requires Owned(l, o) && l.owner[o] == id && NamesItself(l, o) && Covers(l, o, l.chain)
    ensures LedgerOk(Remembered(l, id, o, evicted))
  {
    hide WellFormed, OverlayOk, ViewOk, EntryOk, ChainsKnown, Covers, NamesItself;
    NewEntryOk(l, id, o);
    SameOverlays(l, Remembered(l, id, o, evicted));
  }

  lemma {:induction false} NewEntryOk(l: Ledger, id: HashHeight, o: MemDb)
    requires ChainsKnown(l) && l.chain != []
    requires Owned(l, o) && l.owner[o] == id && NamesItself(l, o) && Covers(l, o, l.chain)
    ensures EntryOk(l, id, RollbackCache(Tip(l.chain), o))
  {
    hide WellFormed, Covers, NamesItself;
    var n := |l.chain|;
    assert l.chain[n - 1].id == Tip(l.chain) && l.chain[..n] == l.chain;
  }

  lemma {:induction false} CirculatedOk(l: Ledger, id: HashHeight, o: MemDb, store: Store)
    requires LedgerOk(l) && Represents(store, l.chain) && id.height <= |l.chain|
    requires Owned(l, o) && At(l, o) == l.chain[..id.height] && Covers(l, o, l.chain)
    ensures LedgerOk(Circulated(l, id, o, store.front))
  {
    hide WellFormed, OverlayOk, EntryOk, TouchedIn, StateOf, Decode, Logged;
    var l' := Circulated(l, id, o, store.front);
    assert ViewOk(l, Issued(o, store.front, l.chain[..id.height], l.chain));
    SameOverlays(l, l');
  }

  /** Serving a view keeps every overlay, cache entry and view in order. */
  lemma {:induction false} ServedKeeps(l: Ledger, store: Store, id: HashHeight, o: MemDb, evicted: set<HashHeight>)
    requires LedgerOk(l) && Represents(store, l.chain)
    requires OnChain(l.chain, id) && id != Tip(l.chain) && Starts(l, id, o)
    ensures Owned(Opened(l, id, o), o) && LedgerOk(Served(l, id, o, evicted, store.front))
  {
    hide LedgerOk, WellFormed, Logged, StateOf, Decode, Replay, Covers, HitHolds, HitClean, NamesItself, ChainsKnown,
         Hit;
    OpenedOk(l, id, o);
    StretchedOk(l, id, o);
    StretchedNames(l, id, o);
    var l1 := Stretched(Opened(l, id, o), id, o);
    RememberedOk(l1, id, o, evicted);
    CoversSame(l1, Remembered(l1, id, o, evicted), o);
    CirculatedOk(Remembered(l1, id, o, evicted), id, o, store);
  }

  lemma CoversSame(l: Ledger, l': Ledger, o: MemDb)
    requires Owned(l, o) && Covers(l, o, l.chain) && l' == l.(l1 := l'.l1, l2 := l'.l2)
    ensures Owned(l', o) && Covers(l', o, l'.chain) && At(l', o) == At(l, o)
  {
  }

  /** Exactly when a view served from an overlay that is not stale reads its version:
      when that overlay holds the live steps up to its recorded height. The overlay
      turns stale exactly when it does not. */
  lemma {:induction false} ServedReads(l: Ledger, store: Store, id: HashHeight, o: MemDb, evicted: set<HashHeight>)
    requires LedgerOk(l) && Represents(store, l.chain)
    requires OnChain(l.chain, id) && id != Tip(l.chain) && Starts(l, id, o)
    ensures Owned(Opened(l, id, o), o)
    ensures var l' := Served(l, id, o, evicted, store.front);
            && l'.stale == (if HitClean(l, id) && HitHolds(l, id) then l.stale else l.stale + {o})
            && (HitClean(l, id) ==>
                  (SameReads(ViewState(Held(l', o), store.front), StateOf(l.chain[..id.height])) <==> HitHolds(l, id)))
  {
    hide LedgerOk, Represents, StateOf, Replay, Hit, HitClean, HitHolds, From, ViewState, SameReads, Served, Opened,
         Held, Starts, OnChain;
    OpenedOk(l, id, o);
    OpenedLooks(l, id, o);
    ServedHolds(l, id, o, evicted, store.front);
    if HitClean(l, id) { CleanReads(l, store, id, o); }
  }

  lemma ServedCaches(l: Ledger, id: HashHeight, o: MemDb, evicted: set<HashHeight>, front: Raw)
    requires Starts(l, id, o)
    ensures var l' := Served(l, id, o, evicted, front);
            if |l.chain| - id.height < 360
            then l'.l1 == (l.l1 - evicted)[id := RollbackCache(Tip(l.chain), o)] && l'.l2 == l.l2
            else l'.l2 == (l.l2 - evicted)[id := RollbackCache(Tip(l.chain), o)] && l'.l1 == l.l1
    ensures id in l.l1 ==> o == l.l1[id].raw
    ensures id !in l.l1 && id in l.l2 ==> o == l.l2[id].raw
  {
    hide Replay, HitHolds, HitClean, From, Tip;
  }

  lemma ServedHolds(l: Ledger, id: HashHeight, o: MemDb, evicted: set<HashHeight>, front: Raw)
    requires Owned(Opened(l, id, o), o) && From(Opened(l, id, o), id) == From(l, id)
    requires Opened(l, id, o).chain == l.chain && Opened(l, id, o).stale == l.stale
    requires HitClean(Opened(l, id, o), id) <==> HitClean(l, id)
    requires HitHolds(Opened(l, id, o), id) <==> HitHolds(l, id)
    ensures var l' := Served(l, id, o, evicted, front);
            && l'.stale == (if HitClean(l, id) && HitHolds(l, id) then l.stale else l.stale + {o})
            && Held(l', o) == Replay(Held(Opened(l, id, o), o), l.chain, From(l, id), |l.chain|)
  {
    hide Opened, Replay, Hit, HitHolds, HitClean, From, Tip;
  }

  lemma {:induction false} CleanReads(l: Ledger, store: Store, id: HashHeight, o: MemDb)
    requires LedgerOk(l) && Represents(store, l.chain) && OnChain(l.chain, id) && Starts(l, id, o) && HitClean(l, id)
    ensures Owned(Opened(l, id, o), o) && id.height <= From(l, id)
    ensures var raw := Replay(Held(Opened(l, id, o), o), l.chain, From(l, id), |l.chain|);
            SameReads(ViewState(raw, store.front), StateOf(l.chain[..id.height])) <==> HitHolds(l, id)
  {
    hide Logged, StateOf, Decode, Replay, Covers, HoldsSteps, ViewState, SameReads, Right, CacheOk, ViewOk, WholeSteps;
    var l' := Opened(l, id, o);
    OpenedOk(l, id, o);
    StartHolds(l, id, o);
    assert OverlayOk(l', o);
    LiveWhole(l', o, id.height, From(l, id));
    HeldExactly(store, l.chain, l'.contents[o], id.height, From(l, id));
  }

  /** On one branch the overlay holds the live steps. */
  lemma {:induction false} OnBranchHolds(l: Ledger, id: HashHeight)
    requires LedgerOk(l) && WellFormed(l.chain) && OnChain(l.chain, id) && OnBranch(l, id)
    ensures HitClean(l, id) && HitHolds(l, id)
  {
    hide LedgerOk, ChainsKnown, WellFormed, TouchedIn, HoldsSteps;
    if Hit(l, id).Some? {
      var e := Hit(l, id).value;
      HitEntry(l, id);
      HitTraced(l, id);
      CoveredHolds(l.contents[e.raw], l.known[e.frontier], l.chain, id.height);
    }
  }

  lemma {:induction false} CoveredHolds(o: Raw, recorded: Chain, chain: Chain, n: nat)
    requires WellFormed(recorded) && n <= |recorded| && n <= |chain| && OneBranch(recorded, chain)
    requires TouchedIn(recorded, n, |recorded|) <= o.Keys
    ensures HoldsSteps(o, chain, n, Min(|recorded|, |chain|))
  {
    forall j | n <= j < Min(|recorded|, |chain|) ensures HashKey(chain[j].id.hash) in o {
      assert recorded[j].id.hash == chain[j].id.hash;
      TouchedInHash(recorded, n, |recorded|, chain[j].id.hash);
    }
  }

  /** The chain the hit was recorded on, and its own version in it. */
  lemma {:induction false} HitTraced(l: Ledger, id: HashHeight)
    requires LedgerOk(l) && OnChain(l.chain, id) && Hit(l, id).Some?
    ensures ChainsKnown(l) && Hit(l, id).value.frontier in l.known
    ensures var recorded := l.known[Hit(l, id).value.frontier];
            && WellFormed(recorded) && Traced(l.known, recorded) && |recorded| == Hit(l, id).value.frontier.height
            && id.height <= |recorded| && recorded[..id.height] == l.chain[..id.height]
  {
    hide WellFormed, OverlayOk, ViewOk, TouchedIn, Traced;
    HitEntry(l, id);
    KnownOnChain(l, id);
    KnownHeight(l, id);
    KnownHeight(l, Hit(l, id).value.frontier);
  }

  /** The overlay was built on one line: it holds what its recorded chain touched and no more. */
  ghost predicate HitSingle(l: Ledger, id: HashHeight) {
    match Hit(l, id)
    case None => true
    case Some(e) =>
      && e.raw in l.contents && e.frontier in l.known && id.height <= |l.known[e.frontier]|
      && l.contents[e.raw].Keys == TouchedIn(l.known[e.frontier], id.height, |l.known[e.frontier]|)
  }

  /** Such an overlay holds the live steps if and only if its recorded chain and the
      live one are on one branch: every other replacement is misread. */
  lemma {:induction false} SingleHoldsExactly(l: Ledger, id: HashHeight)
    requires LedgerOk(l) && WellFormed(l.chain) && OnChain(l.chain, id) && HitClean(l, id) && HitSingle(l, id)
    ensures HitHolds(l, id) <==> OnBranch(l, id)
  {
    hide LedgerOk, WellFormed, TouchedIn;
    if OnBranch(l, id) {
      OnBranchHolds(l, id);
    } else if HitHolds(l, id) {
      var e := Hit(l, id).value;
      HitEntry(l, id);
      HitTraced(l, id);
      HeldIsShared(l, l.known[e.frontier], l.contents[e.raw], id.height);
    }
  }

  /** Holding the live steps and nothing but the recorded ones, the chains agree. */
  lemma {:induction false} HeldIsShared(l: Ledger, recorded: Chain, o: Raw, n: nat)
    requires ChainsKnown(l) && WellFormed(recorded) && Traced(l.known, recorded)
    requires n <= |recorded| && n <= |l.chain| && recorded[..n] == l.chain[..n]
    requires o.Keys == TouchedIn(recorded, n, |recorded|) && HoldsSteps(o, l.chain, n, Min(|recorded|, |l.chain|))
    ensures OneBranch(recorded, l.chain)
  {
    hide WellFormed, TouchedIn, ChainsKnown;
    var from := Min(|recorded|, |l.chain|);
    if from > n {
      var h := l.chain[from - 1].id.hash;
      TouchedInHash(recorded, n, |recorded|, h);
      var i :| n <= i < |recorded| && recorded[i].id.hash == h;
      LiveHash(l, recorded[i].id, from - 1);
      assert recorded[..i + 1] == l.chain[..from];
      assert |recorded[..i + 1]| == i + 1 && |l.chain[..from]| == from;
    }
  }

  /** A new overlay is built on one line, and stays so while the chain it was recorded on grows. */
  lemma {:induction false} ServedSingle(l: Ledger, store: Store, id: HashHeight, o: MemDb, evicted: set<HashHeight>)
    requires LedgerOk(l) && Represents(store, l.chain)
    requires OnChain(l.chain, id) && id != Tip(l.chain) && Starts(l, id, o) && HitSingle(l, id)
    requires Hit(l, id).Some? ==> Hit(l, id).value.frontier in l.known && l.known[Hit(l, id).value.frontier] <= l.chain
    requires id !in l.l1 || |l.chain| - id.height < MAXIMUM_CACHE_HEIGHT_DIFFERENCE
    ensures HitSingle(Served(l, id, o, evicted, store.front), id)
  {
    hide LedgerOk, Logged, StateOf, Decode, Replay, TouchedIn, HoldsSteps, HitClean, HitHolds, WellFormedStep;
    OpenedOk(l, id, o);
    OpenedLooks(l, id, o);
    StartHolds(l, id, o);
    KnownTip(l);
    if Hit(l, id).Some? { HitTraced(l, id); }
    SingleKeys(l, id, o);
  }

  lemma KnownTip(l: Ledger)
    requires LedgerOk(l) && l.chain != []
    ensures Tip(l.chain) in l.known && l.known[Tip(l.chain)] == l.chain
  {
    hide OverlayOk, EntryOk, ViewOk, CacheOk, WellFormed;
    assert l.chain[|l.chain| - 1].id == Tip(l.chain) && l.chain[..|l.chain|] == l.chain;
  }

  lemma {:induction false} SingleKeys(l: Ledger, id: HashHeight, o: MemDb)
    requires id.height <= From(l, id) && Starts(l, id, o) && HitSingle(l, id)
    requires match Hit(l, id)
             case None => true
             case Some(e) =>
               && e.frontier in l.known && l.known[e.frontier] <= l.chain
               && |l.known[e.frontier]| == e.frontier.height
    ensures Replay(Held(Opened(l, id, o), o), l.chain, From(l, id), |l.chain|).Keys ==
        TouchedIn(l.chain, id.height, |l.chain|)
  {
    hide Replay, StateOf;
    var raw, from := Held(Opened(l, id, o), o), From(l, id);
    TouchedInSplit(l.chain, id.height, from, |l.chain|);
    if Hit(l, id).Some? { TouchedInOfPrefix(l.known[Hit(l, id).value.frontier], l.chain, id.height, from); }
    forall k ensures k in Replay(raw, l.chain, from, |l.chain|) <==> k in TouchedIn(l.chain, id.height, |l.chain|) {
      ReplayReads(raw, l.chain, from, |l.chain|, k);
    }
  }

  // ---- Adding and popping ----

  /** Identifiers do not collide: the hash is new on this chain, and a hash met
      before was met on this very chain. */
  ghost predicate FreshStep(l: Ledger, step: Step) {
    && WellFormed(l.chain + [step])
    && forall id :: id in l.known && id.hash == step.id.hash ==> id == step.id && l.known[id] == l.chain + [step]
  }

  ghost function Appended(l: Ledger, step: Step): Ledger {
    l.(chain := l.chain + [step], known := l.known[step.id := l.chain + [step]])
  }

  ghost function Popped(l: Ledger): Ledger { l.(chain := ChainAfter(l.chain, PopOp)) }

  /** What is known stays known. */
  ghost predicate Grows(l: Ledger, l': Ledger) {
    && l' == l.(chain := l'.chain, known := l'.known)
    && forall id :: id in l.known ==> id in l'.known && l'.known[id] == l.known[id]
  }

  lemma {:induction false} MoveKeepsOverlay(l: Ledger, l': Ledger, o: MemDb, raw: Raw)
    requires OverlayOk(l, o) && Grows(l, l') && raw == l.contents[o]
    requires forall id :: id in l'.known && l'.known[id] != [] && id !in l.known ==> WholeStep(raw, Last(l'.known[id]))
    ensures OverlayOk(l', o)
  {
    hide StateOf, Right, WholeStep;
    forall id | id in l'.known && l'.known[id] != [] ensures WholeStep(raw, Last(l'.known[id])) {
      if id in l.known { assert WholeStep(raw, Last(l.known[id])); }
    }
    forall h | HashKey(h) in raw ensures HashKnown(l', h) {
      assert HashKnown(l, h);
      var id :| id in l.known && id.hash == h;
      assert id in l'.known;
    }
  }

  /** Moving the live chain keeps every overlay, cache entry and view: Pop leaves
      caches alone, and a popped identifier keeps its chain. */
  lemma {:induction false} MoveKeeps(l: Ledger, l': Ledger)
    requires LedgerOk(l) && Grows(l, l') && ChainsKnown(l')
    requires forall o :: o in l.owner ==> OverlayOk(l', o)
    ensures LedgerOk(l')
  {
    hide ChainsKnown, OverlayOk, TouchedIn, StateOf, Decode;
    forall v | v in l'.issued ensures ViewOk(l', v) { assert ViewOk(l, v); }
    forall i | i in l.l1 ensures EntryOk(l', i, l.l1[i]) { assert EntryOk(l, i, l.l1[i]); }
    forall i | i in l.l2 ensures EntryOk(l', i, l.l2[i]) { assert EntryOk(l, i, l.l2[i]); }
  }

  lemma {:induction false} PoppedOk(l: Ledger)
    requires LedgerOk(l)
    ensures LedgerOk(Popped(l))
  {
    hide OverlayOk, EntryOk, ViewOk, WellFormed, CacheOk;
    var l' := Popped(l);
    forall n | 0 <= n < |l'.chain| ensures l'.chain[n].id in l.known && l.known[l'.chain[n].id] == l'.chain[..n + 1] {
      assert l.known[l.chain[n].id] == l.chain[..n + 1] == l'.chain[..n + 1];
    }
    forall o | o in l.owner ensures OverlayOk(l', o) {
      OwnedIsThere(l, o);
      MoveKeepsOverlay(l, l', o, l.contents[o]);
    }
    MoveKeeps(l, l');
  }

  lemma {:induction false} AppendedKnown(l: Ledger, step: Step)
    requires ChainsKnown(l) && FreshStep(l, step)
    ensures ChainsKnown(Appended(l, step)) && Grows(l, Appended(l, step))
  {
    hide WellFormed;
    var l', longer := Appended(l, step), l.chain + [step];
    forall n | 0 <= n < |longer| ensures longer[n].id in l'.known && l'.known[longer[n].id] == longer[..n + 1] {
      if n < |l.chain| {
        assert l.known[l.chain[n].id] == l.chain[..n + 1] == longer[..n + 1];
      } else {
        assert longer[..n + 1] == longer;
      }
    }
    forall id | id in l'.known ensures Traced(l'.known, l'.known[id]) {
      if id in l.known { TracedGrows(l, l', l.known[id]); }
    }
  }

  lemma {:induction false} TracedGrows(l: Ledger, l': Ledger, chain: Chain)
    requires Traced(l.known, chain) && Grows(l, l')
    ensures Traced(l'.known, chain)
  {
  }

  /** A hash no overlay has met is in none. */
  lemma {:induction false} AppendedOverlay(l: Ledger, step: Step, o: MemDb)
    requires OverlayOk(l, o) && FreshStep(l, step) && Grows(l, Appended(l, step))
    ensures OverlayOk(Appended(l, step), o)
  {
    hide StateOf, Right, WellFormed, Whole;
    assert step.id !in l.known ==> !HashKnown(l, step.id.hash);
    MoveKeepsOverlay(l, Appended(l, step), o, l.contents[o]);
  }

  lemma {:induction false} AppendedOk(l: Ledger, step: Step)
    requires LedgerOk(l) && FreshStep(l, step)
    ensures LedgerOk(Appended(l, step))
  {
    hide OverlayOk, EntryOk, ViewOk, WellFormed, CacheOk, ChainsKnown;
    AppendedKnown(l, step);
    forall o | o in l.owner ensures OverlayOk(Appended(l, step), o) { AppendedOverlay(l, step, o); }
    MoveKeeps(l, Appended(l, step));
  }

  // ---- Runs ----

  datatype Config = Config(store: Store, ledger: Ledger)

  datatype Call =
    | CallGet(id: HashHeight, evicted: set<HashHeight>)
    | CallAdd(previous: HashHeight, step: Step)
    | CallPop

  ghost predicate Good(c: Config) { Represents(c.store, c.ledger.chain) && LedgerOk(c.ledger) }

  /** One call: what it answers and what it leaves. Adds go on the live frontier. */
  ghost predicate Next(c: Config, call: Call, v: View, c': Config) {
    var l := c.ledger;
    match call
    case CallGet(id, evicted) =>
      if id == ZERO_ID then v == EmptyDb && c' == c
      else if !OnChain(l.chain, id) then v == Missing && c' == c
      else if id == Tip(l.chain) then v == Frontier(c.store.front) && c' == c
      else
        && v.Historical? && v.snapshot == c.store.front && Starts(l, id, v.overlay)
        && c' == c.(ledger := Served(l, id, v.overlay, evicted, c.store.front))
    case CallAdd(previous, step) =>
      && previous == Tip(l.chain) && FreshStep(l, step) && v == Missing
      && c' == Config(StoreAfter(c.store, AddOp(step)), Appended(l, step))
    case CallPop =>
      v == Missing && c' == Config(StoreAfter(c.store, PopOp), Popped(l))
  }

  lemma {:induction false} NextKeeps(c: Config, call: Call, v: View, c': Config)
    requires Good(c) && Next(c, call, v, c')
    ensures Good(c')
  {
    hide LedgerOk, Represents, Served, WellFormed, OnChain, Starts, WriteStep, Tip;
    var l := c.ledger;
    match call
    case CallGet(id, evicted) =>
      if c' != c { ServedKeeps(l, c.store, id, v.overlay, evicted); }
      ServedChain(l, id, v, evicted, c.store.front);
    case CallAdd(_, step) =>
      AddRepresents(c.store, l.chain, step);
      AppendedOk(l, step);
    case CallPop =>
      PopKeeps(c.store, l.chain);
      PoppedOk(l);
  }

  lemma ServedChain(l: Ledger, id: HashHeight, v: View, evicted: set<HashHeight>, front: Raw)
    ensures v.Historical? ==> Served(l, id, v.overlay, evicted, front).chain == l.chain
  {
    hide Replay, HitHolds, HitClean, Tip, From;
  }

  lemma PopKeeps(store: Store, chain: Chain)
    requires Represents(store, chain)
    ensures FrontierIdentifier(Decode(store.front)).height in store.rollbacks <==> chain != []
    ensures Represents(StoreAfter(store, PopOp), ChainAfter(chain, PopOp))
  {
    FrontierHeight(store, chain);
    if chain != [] { PopRepresents(store, chain); }
  }

  lemma FrontierHeight(store: Store, chain: Chain)
    requires Represents(store, chain)
    ensures FrontierIdentifier(Decode(store.front)).height == |chain|
  {
    FrontierOfChain(chain);
  }

  /** A call that gets from an overlay that is right and holds the live steps, or does
      not get from one at all. */
  ghost predicate Safe(c: Config, call: Call) {
    call.CallGet? && OnChain(c.ledger.chain, call.id) && call.id != Tip(c.ledger.chain) ==>
      HitClean(c.ledger, call.id) && HitHolds(c.ledger, call.id)
  }

  /** Views stay in circulation, and a safe call makes no overlay stale. */
  lemma {:induction false} NextIssues(c: Config, call: Call, v: View, c': Config)
    requires Good(c) && Next(c, call, v, c')
    ensures c.ledger.issued <= c'.ledger.issued
    ensures Safe(c, call) ==> c'.ledger.stale == c.ledger.stale
    ensures v.Historical? ==>
              && call.CallGet? && OnChain(c.ledger.chain, call.id)
              && Issued(v.overlay, v.snapshot, c.ledger.chain[..call.id.height], c.ledger.chain) in c'.ledger.issued
    ensures v.Historical? && Safe(c, call) ==> v.overlay !in c'.ledger.stale
  {
    hide LedgerOk, Represents, WellFormed, HitHolds, Replay;
    var l := c.ledger;
    if v.Historical? {
      ServedReads(l, c.store, call.id, v.overlay, call.evicted);
      StartHolds(l, call.id, v.overlay);
    }
  }

  ghost predicate IsRun(cs: seq<Config>, calls: seq<Call>, vs: seq<View>) {
    && |cs| == |calls| + 1 && |vs| == |calls|
    && forall k :: 0 <= k < |calls| ==> Next(cs[k], calls[k], vs[k], cs[k + 1])
  }

  lemma {:induction false} RunKeeps(cs: seq<Config>, calls: seq<Call>, vs: seq<View>, k: nat)
    requires IsRun(cs, calls, vs) && Good(cs[0]) && k <= |calls|
    ensures Good(cs[k])
  {
    hide Good, Next;
    if k > 0 {
      RunKeeps(cs, calls, vs, k - 1);
      NextKeeps(cs[k - 1], calls[k - 1], vs[k - 1], cs[k]);
    }
  }

  lemma {:induction false} RunIssues(cs: seq<Config>, calls: seq<Call>, vs: seq<View>, i: nat, k: nat)
    requires IsRun(cs, calls, vs) && Good(cs[0]) && i <= k <= |calls|
    requires forall j :: i <= j < k ==> Safe(cs[j], calls[j])
    ensures cs[i].ledger.issued <= cs[k].ledger.issued && cs[k].ledger.stale == cs[i].ledger.stale
  {
    hide Good, Next, Safe;
    if i < k {
      RunIssues(cs, calls, vs, i, k - 1);
      RunKeeps(cs, calls, vs, k - 1);
      NextIssues(cs[k - 1], calls[k - 1], vs[k - 1], cs[k]);
    }
  }

  /** What a view answers in a configuration. */
  ghost function Answer(l: Ledger, v: View): State {
    match v
    case Missing => map[]
    case EmptyDb => map[]
    case Frontier(snapshot) => Decode(snapshot)
    case Historical(overlay, snapshot) => ViewState(Held(l, overlay), snapshot)
  }

  /** In every run whose calls are safe, every view ever handed out still reads, at the
      end, the state its identifier had when it was asked for. */
  lemma {:induction false} RunViewsRead(cs: seq<Config>, calls: seq<Call>, vs: seq<View>, k: nat)
    requires IsRun(cs, calls, vs) && Good(cs[0]) && k < |calls|
    requires forall j :: 0 <= j < |calls| ==> Safe(cs[j], calls[j])
    requires calls[k].CallGet? && OnChain(cs[k].ledger.chain, calls[k].id)
    ensures SameReads(Answer(cs[|calls|].ledger, vs[k]), StateOf(cs[k].ledger.chain[..calls[k].id.height]))
  {
    hide LedgerOk, Served, Safe, WellFormed, Logged, StateOf, Decode, ViewState;
    var c, id, n := cs[k], calls[k].id, |calls|;
    RunKeeps(cs, calls, vs, k);
    RunKeeps(cs, calls, vs, n);
    assert Next(c, calls[k], vs[k], cs[k + 1]);
    if vs[k].Historical? {
      NextIssues(c, calls[k], vs[k], cs[k + 1]);
      RunIssues(cs, calls, vs, k + 1, n);
      IssuedViewReads(cs[n].ledger, Issued(vs[k].overlay, vs[k].snapshot, c.ledger.chain[..id.height], c.ledger.chain));
    } else {
      OnChainId(c.ledger.chain, id);
    }
  }

  lemma OnChainId(chain: Chain, id: HashHeight)
    requires OnChain(chain, id)
    ensures id != ZERO_ID && (id == Tip(chain) && WellFormed(chain) ==> chain[..id.height] == chain)
  {
  }

  ghost predicate ReadsRight(c: Config, call: Call, v: View, c': Config) {
    call.CallGet? && OnChain(c.ledger.chain, call.id) ==>
      SameReads(Answer(c'.ledger, v), StateOf(c.ledger.chain[..call.id.height]))
  }

  /** On one branch a call is safe. */
  lemma {:induction false} BranchIsSafe(c: Config, call: Call)
    requires Good(c)
    requires call.CallGet? && OnChain(c.ledger.chain, call.id) ==> OnBranch(c.ledger, call.id)
    ensures Safe(c, call)
  {
    hide LedgerOk, Logged, StateOf, Decode, HitHolds, HitClean, OnBranch;
    if call.CallGet? && OnChain(c.ledger.chain, call.id) { OnBranchHolds(c.ledger, call.id); }
  }

  /** Runs that keep to the branch: when every overlay that is found was recorded on the
      branch live at that moment, every call is safe. */
  lemma {:induction false} BranchRunIsSafe(cs: seq<Config>, calls: seq<Call>, vs: seq<View>, n: nat)
    requires IsRun(cs, calls, vs) && Good(cs[0]) && cs[0].ledger.stale == {} && n <= |calls|
    requires forall k :: 0 <= k < |calls| && calls[k].CallGet? && OnChain(cs[k].ledger.chain, calls[k].id) ==>
               HitOnBranch(cs[k].ledger, calls[k].id)
    ensures forall k :: 0 <= k < n ==> Safe(cs[k], calls[k])
  {
    hide Good, Next, Safe, OnChain, HitOnBranch;
    if n > 0 {
      BranchRunIsSafe(cs, calls, vs, n - 1);
      RunIssues(cs, calls, vs, 0, n - 1);
      RunKeeps(cs, calls, vs, n - 1);
      BranchIsSafe(cs[n - 1], calls[n - 1]);
    }
  }

  /** While no overlay is stale, a call answers rightly if and only if it is safe. */
  lemma {:induction false} SafeExactly(c: Config, call: Call, v: View, c': Config)
    requires Good(c) && Next(c, call, v, c') && c.ledger.stale == {}
    ensures ReadsRight(c, call, v, c') <==> Safe(c, call)
  {
    hide LedgerOk, Logged, StateOf, Decode, HitHolds, Served, ViewState, WellFormed;
    if call.CallGet? && OnChain(c.ledger.chain, call.id) {
      OnChainId(c.ledger.chain, call.id);
      if call.id != Tip(c.ledger.chain) { ServedReads(c.ledger, c.store, call.id, v.overlay, call.evicted); }
    }
  }

  /** Over every run from a manager with no stale overlay: all views are right when
      handed out if and only if all calls are safe. */
  lemma {:induction false} RunReadsExactly(cs: seq<Config>, calls: seq<Call>, vs: seq<View>, n: nat)
    requires IsRun(cs, calls, vs) && Good(cs[0]) && cs[0].ledger.stale == {} && n <= |calls|
    ensures (forall k :: 0 <= k < n ==> ReadsRight(cs[k], calls[k], vs[k], cs[k + 1]))
            <==> (forall k :: 0 <= k < n ==> Safe(cs[k], calls[k]))
  {
    hide Good, Next, Safe, ReadsRight;
    if n > 0 {
      RunReadsExactly(cs, calls, vs, n - 1);
      if forall k :: 0 <= k < n - 1 ==> Safe(cs[k], calls[k]) {
        RunIssues(cs, calls, vs, 0, n - 1);
        RunKeeps(cs, calls, vs, n - 1);
        SafeExactly(cs[n - 1], calls[n - 1], vs[n - 1], cs[n]);
      }
    }
  }

  // ---- The manager ----

  /** The frontier and hash-index reads of Get, in terms of the live chain. */
  lemma LiveIdentifiers(store: Store, chain: Chain, id: HashHeight)
    requires Represents(store, chain)
    ensures FrontierIdentifier(Decode(store.front)) == Tip(chain) && Tip(chain).height == |chain|
    ensures IdentifierByHash(Decode(store.front), id.hash) == Some(id) <==> OnChain(chain, id)
    ensures OnChain(chain, id) ==> id != ZERO_ID
    ensures id == Tip(chain) && id != ZERO_ID ==> OnChain(chain, id)
  {
    FrontierOfChain(chain);
    HashIndexExact(chain, id);
    assert chain[..|chain|] == chain;
  }

  lemma RollbackLogAt(store: Store, chain: Chain, h: nat)
    requires Represents(store, chain) && 1 <= h <= |chain|
    ensures h in store.rollbacks && store.rollbacks[h] == RollbackPatches(chain)[h - 1]
  {
  }

  lemma ForwardLogAt(store: Store, chain: Chain, h: nat)
    requires Represents(store, chain)
    ensures h in store.patches <==> 1 <= h <= |chain|
    ensures h in store.patches ==> store.patches[h] == StepPatch(chain[h - 1])
  {
  }

  lemma ReplayNothing(o: Raw, chain: Chain, n: nat)
    requires n <= |chain|
    ensures Replay(o, chain, n, n) == o
  {
  }

  lemma {:induction false} ReplayUnfolds(o: Raw, chain: Chain, from: nat, to: nat)
    requires from < to <= |chain|
    ensures Replay(o, chain, from, to) == Overlay(Replay(o, chain, from, to - 1), RollbackPatches(chain)[to - 1])
  {
  }

  /** A served view names its own identifier as frontier, stale or not. */
  lemma {:induction false} ServedNames(l: Ledger, id: HashHeight, o: MemDb, evicted: set<HashHeight>, front: Raw)
    requires LedgerOk(l) && WellFormed(l.chain) && OnChain(l.chain, id) && id != Tip(l.chain) && Starts(l, id, o)
    ensures FrontierIdentifier(ViewState(Held(Served(l, id, o, evicted, front), o), front)) == id
  {
    hide LedgerOk, WellFormed, Replay, Tip, HitHolds, HitClean, Hit;
    OpenedOk(l, id, o);
    StretchedNames(l, id, o);
    SerializeRoundTrip(id);
  }

  class Manager {
    var store: Store
    var l1: Cache
    var l2: Cache
    ghost var chain: Chain
    ghost var known: map<HashHeight, Chain>
    ghost var owner: map<MemDb, HashHeight>
    ghost var stale: set<MemDb>
    ghost var issued: set<Issued>

    ghost function Picture(): Ledger
      reads this, owner.Keys
    {
      Ledger(chain, known, owner, map o | o in owner :: o.raw, stale, issued, l1, l2)
    }

    ghost function Now(): Config
      reads this, owner.Keys
    {
      Config(store, Picture())
    }

    ghost predicate Valid()
      reads this, owner.Keys
    {
      Good(Now())
    }

    /** The empty chain, nothing cached and nothing handed out. */
    constructor ()
      ensures Valid() && Now() == Config(EMPTY_STORE, Ledger([], map[], map[], map[], {}, {}, map[], map[]))
    {
      store, l1, l2 := EMPTY_STORE, map[], map[];
      chain, known, owner, stale, issued := [], map[], map[], {}, {};
      new;
      assert Decode(map[]) == map[];
      assert LogOf([]) == map[];
      assert Picture().contents == map[];
    }

    /** The overlay to start from: cached in l1, cached in l2, or a new one. */
    method Lookup(identifier: HashHeight) returns (overlay: MemDb, recorded: HashHeight)
      requires Valid() && OnChain(chain, identifier)
      modifies `owner
      ensures Starts(old(Picture()), identifier, overlay) && recorded == Recorded(old(Picture()), identifier)
      ensures Picture() == Opened(old(Picture()), identifier, overlay) && overlay in owner
      ensures fresh(owner.Keys - old(owner.Keys))
    {
      hide Good, LedgerOk, OnChain;
      if identifier in l1 {
        overlay, recorded := l1[identifier].raw, l1[identifier].frontier;
        HitOwned(Now(), identifier);
      } else if identifier in l2 {
        overlay, recorded := l2[identifier].raw, l2[identifier].frontier;
        HitOwned(Now(), identifier);
      } else {
        overlay := Open(identifier);
        recorded := identifier;
      }
    }

    method Open(identifier: HashHeight) returns (overlay: MemDb)
      modifies `owner
      ensures fresh(overlay) && owner == old(owner)[overlay := identifier]
      ensures Picture() == WithFresh(old(Picture()), overlay, identifier) && overlay !in old(owner)
    {
      overlay := new MemDb();
      owner := owner[overlay := identifier];
    }

    /** The replay loop: rollback patches above the recorded height, upwards. */
    method Extend(overlay: MemDb, recorded: nat)
      requires Represents(store, chain)
      modifies overlay
      ensures overlay.raw == Replay(old(overlay.raw), chain, Min(recorded, |chain|), |chain|)
    {
      hide Represents, Replay, Overlay, RollbackPatches, Decode, FrontierIdentifier;
      ReplayNothing(overlay.raw, chain, Min(recorded, |chain|));
      var top := FrontierIdentifier(Decode(store.front)).height;
      FrontierHeight(store, chain);
      var i := recorded;
      while i < top
        invariant recorded <= i
        invariant overlay.raw == Replay(old(overlay.raw), chain, Min(recorded, |chain|), Min(i, |chain|))
      {
        i := i + 1;
        RollbackLogAt(store, chain, i);
        overlay.raw := ApplyWithoutOverride(overlay.raw, store.rollbacks[i]);
        ReplayUnfolds(old(overlay.raw), chain, Min(recorded, |chain|), i);
      }
    }

    /** The cache the overlay goes to depends on its distance from the frontier. */
    method Remember(identifier: HashHeight, overlay: MemDb, evicted: set<HashHeight>)
      requires Represents(store, chain)
      modifies `l1, `l2
      ensures Picture() == Remembered(old(Picture()), identifier, overlay, evicted)
    {
      hide Represents, Decode, FrontierIdentifier, IdentifierByHash, OnChain;
      var top := FrontierIdentifier(Decode(store.front));
      LiveIdentifiers(store, chain, identifier);
      var entry := RollbackCache(top, overlay);
      if top.height - identifier.height < MAXIMUM_CACHE_HEIGHT_DIFFERENCE {
        l1 := (l1 - evicted)[identifier := entry];
      } else {
        l2 := (l2 - evicted)[identifier := entry];
      }
    }

    /** The view of an identifier below the live frontier. */
    method Rebuild(identifier: HashHeight, evicted: set<HashHeight>) returns (v: View)
      requires Valid() && OnChain(chain, identifier) && identifier != Tip(chain)
      modifies `l1, `l2, `owner, `stale, `issued, owner.Keys
      ensures v.Historical? && v.snapshot == store.front && v.overlay in owner
      ensures Starts(old(Picture()), identifier, v.overlay)
      ensures Picture() == Served(old(Picture()), identifier, v.overlay, evicted, store.front)
      ensures fresh(owner.Keys - old(owner.Keys))
    {
      hide Good, LedgerOk, Represents, OnChain, Tip, Starts, Opened, Recorded, Stretched, Remembered, Circulated,
           Served;
      GoodParts(Now());
      ghost var before := Picture();
      var overlay, recorded := Lookup(identifier);
      OpenedLooks(before, identifier, overlay);
      Stretch(identifier, overlay, recorded);
      Remember(identifier, overlay, evicted);
      v := HandOut(identifier, overlay);
      ServedUnfolds(before, identifier, overlay, evicted, store.front);
    }

    /** Extends the overlay in place; it turns stale unless it is right and holds the live steps. */
    method Stretch(identifier: HashHeight, overlay: MemDb, recorded: HashHeight)
      requires Represents(store, chain) && overlay in owner && recorded == Recorded(Picture(), identifier)
      modifies overlay, `stale
      ensures Picture() == Stretched(old(Picture()), identifier, overlay)
    {
      hide Represents, Replay, HitHolds, HitClean, Recorded;
      ghost var clean := HitClean(Picture(), identifier) && HitHolds(Picture(), identifier);
      Extend(overlay, recorded.height);
      stale := if clean then stale else stale + {overlay};
    }

    /** Puts a view of the overlay over the live snapshot into circulation. */
    method HandOut(identifier: HashHeight, overlay: MemDb) returns (v: View)
      modifies `issued
      ensures v == Historical(overlay, store.front)
      ensures Picture() == Circulated(old(Picture()), identifier, overlay, store.front)
    {
      issued := issued + {Issued(overlay, store.front, chain[..Min(identifier.height, |chain|)], chain)};
      v := Historical(overlay, store.front);
    }

    /** Get of any identifier, as one call of a run. From an overlay that is not stale
        the view reads its version if and only if the overlay holds the live steps. */
    method Get(identifier: HashHeight, evicted: set<HashHeight>) returns (v: View)
      requires Valid()
      modifies `l1, `l2, `owner, `stale, `issued, owner.Keys
      ensures Valid() && Next(old(Now()), CallGet(identifier, evicted), v, Now())
      ensures fresh(owner.Keys - old(owner.Keys))
      ensures v.Historical? ==> v.overlay in owner
      ensures if v.Historical? && |chain| - identifier.height < 360
              then l1 == (old(l1) - evicted)[identifier := RollbackCache(Tip(chain), v.overlay)] && l2 == old(l2)
              else if v.Historical?
              then l2 == (old(l2) - evicted)[identifier := RollbackCache(Tip(chain), v.overlay)] && l1 == old(l1)
              else l1 == old(l1) && l2 == old(l2)
      ensures v.Historical? && identifier in old(l1) ==> v.overlay == old(l1)[identifier].raw
      ensures v.Historical? && identifier !in old(l1) && identifier in old(l2) ==> v.overlay == old(l2)[identifier].raw
      ensures v.Historical? && old(HitClean(Picture(), identifier)) ==>
                (ReadsAt(v, chain, identifier.height) <==> old(HitHolds(Picture(), identifier)))
      ensures v.Historical? && old(HitClean(Picture(), identifier) && HitSingle(Picture(), identifier)) ==>
                (ReadsAt(v, chain, identifier.height) <==> old(OnBranch(Picture(), identifier)))
    {
      hide Good, LedgerOk, Represents, OnChain, Tip, Starts, Served, HitClean, HitHolds, Decode, FrontierIdentifier,
           IdentifierByHash, SameReads, StateOf, ViewState, HitSingle, OnBranch;
      GoodParts(Now());
      ghost var before := Now();
      var frontier := Decode(store.front);
      var frontierIdentifier := FrontierIdentifier(frontier);
      LiveIdentifiers(store, chain, identifier);
      if identifier == ZERO_ID {
        v := EmptyDb;
      } else if identifier == frontierIdentifier {
        v := Frontier(store.front);
      } else if IdentifierByHash(frontier, identifier.hash) != Some(identifier) {
        v := Missing;
      } else {
        v := Rebuild(identifier, evicted);
        OnChainHeight(chain, identifier);
        ServedReads(before.ledger, store, identifier, v.overlay, evicted);
        ServedCaches(before.ledger, identifier, v.overlay, evicted, store.front);
        if HitClean(before.ledger, identifier) && HitSingle(before.ledger, identifier) {
          SingleHoldsExactly(before.ledger, identifier);
        }
      }
      NextKeeps(before, CallGet(identifier, evicted), v, Now());
    }

    /** Looked up by height alone: any identifier of a height gets that height's patch. */
    method GetPatch(identifier: HashHeight) returns (patch: Option<Patch>)
      requires Valid()
      ensures patch == if 1 <= identifier.height <= |chain| then Some(StepPatch(chain[identifier.height - 1])) else None
    {
      hide LedgerOk, Represents, StepPatch;
      var h := identifier.height;
      ForwardLogAt(store, chain, h);
      patch := if h in store.patches then Some(store.patches[h]) else None;
    }

    /** Pop drops the live frontier; caches and views are left alone. On an empty chain
        there is no rollback patch, and replaying it crashes. */
    method Pop() returns (crashed: bool)
      requires Valid()
      modifies `store, `chain
      ensures Valid() && Next(old(Now()), CallPop, Missing, Now())
      ensures crashed <==> old(chain) == []
    {
      hide Good, LedgerOk, Represents, Decode, FrontierIdentifier, RawApply;
      GoodParts(Now());
      ghost var before := Now();
      var h := FrontierIdentifier(Decode(store.front)).height;
      PopKeeps(store, chain);
      crashed := h !in store.rollbacks;
      if !crashed {
        var front := ApplyPatch(store.front, store.rollbacks[h]);
        store := Store(front, store.patches - {h}, store.rollbacks - {h});
        chain := chain[..|chain| - 1];
      }
      assert Now() == Config(StoreAfter(before.store, PopOp), Popped(before.ledger));
      NextKeeps(before, CallPop, Missing, Now());
    }

    /** The writes of Add; `append` says that they go on the live frontier. */
    method Commit(db: State, step: Step, ghost append: bool)
      requires append ==> Valid() && FreshStep(Picture(), step) && db == Decode(store.front)
      modifies `store, `chain, `known
      ensures append ==> Valid() && Next(old(Now()), CallAdd(Tip(old(chain)), step), Missing, Now())
      ensures !append ==> Now() == old(Now()).(store := WriteStep(old(store), db, step))
    {
      hide Good, FreshStep, Decode;
      ghost var before := Now();
      var patch := StepPatch(step);
      var rollback := RollbackPatch(db, patch);
      var front := ApplyPatch(store.front, patch);
      store := Store(front, store.patches[step.id.height := patch], store.rollbacks[step.id.height := rollback]);
      if append {
        known := known[step.id := chain + [step]];
        chain := chain + [step];
        AddIsCall(before, step, db, Now());
      }
    }

    /** Add reads `previous` through Get and compares it with that view's own frontier,
        which it always is. On the live frontier the chain grows by the step and caches
        and views stay as they are; on an older version Add writes all the same, over
        the live frontier, with a rollback patch computed on the view it was given. */
    method Add(previous: HashHeight, step: Step, evicted: set<HashHeight>) returns (ok: bool, ghost seen: View)
      requires Valid() && step.id.height == previous.height + 1
      requires previous == Tip(chain) ==> FreshStep(Picture(), step)
      modifies this, owner.Keys
      ensures ok <==> previous == ZERO_ID || OnChain(old(chain), previous)
      ensures fresh(owner.Keys - old(owner.Keys))
      ensures previous == Tip(old(chain)) ==> Valid() && Next(old(Now()), CallAdd(previous, step), Missing, Now())
      ensures previous != Tip(old(chain)) ==>
                && Next(old(Now()), CallGet(previous, evicted), seen, Config(old(store), Picture()))
                && store == if ok then WriteStep(old(store), Answer(Picture(), seen), step) else old(store)
    {
      hide Good, LedgerOk, Represents, FreshStep, Starts, Served, HitClean, HitHolds, Decode, FrontierIdentifier,
           WriteStep, ViewState, OnChain, Tip;
      GoodParts(Now());
      ghost var before := Now();
      LiveIdentifiers(store, chain, previous);
      var view := Get(previous, evicted);
      ok, seen := !view.Missing?, view;
      if ok {
        var db := Reads(view);
        assert db == Answer(Picture(), view);
        ViewNames(before, previous, evicted, view, Now());
        if previous == FrontierIdentifier(db) {
          Commit(db, step, previous == Tip(chain));
        }
      }
    }
  }

  /** Whatever view answers for an identifier names it as its frontier. */
  lemma {:induction false} ViewNames(c: Config, id: HashHeight, evicted: set<HashHeight>, v: View, c': Config)
    requires Good(c) && Next(c, CallGet(id, evicted), v, c') && !v.Missing?
    ensures FrontierIdentifier(Answer(c'.ledger, v)) == id
    ensures id == Tip(c.ledger.chain) ==> Answer(c'.ledger, v) == Decode(c.store.front) && c' == c
  {
    hide LedgerOk, Represents, Served, Starts, ViewState, HitHolds, HitClean;
    GoodParts(c);
    LiveIdentifiers(c.store, c.ledger.chain, id);
    EmptyFrontier(c.store, c.ledger.chain);
    if v.Historical? { ServedNames(c.ledger, id, v.overlay, evicted, c.store.front); }
  }

  lemma EmptyFrontier(store: Store, chain: Chain)
    requires Represents(store, chain)
    ensures Tip(chain) == ZERO_ID ==> Decode(store.front) == map[]
    ensures FrontierIdentifier(map[]) == ZERO_ID
  {
    EmptyState(store, chain);
  }

  /** The writes on the live frontier are the call Add of a run. */
  lemma {:induction false} AddIsCall(c: Config, step: Step, db: State, c': Config)
    requires Good(c) && FreshStep(c.ledger, step) && db == Decode(c.store.front)
    requires c' == Config(WriteStep(c.store, db, step), Appended(c.ledger, step))
    ensures Next(c, CallAdd(Tip(c.ledger.chain), step), Missing, c') && Good(c')
  {
    hide Good, FreshStep, Decode, WriteStep;
    NextKeeps(c, CallAdd(Tip(c.ledger.chain), step), Missing, c');
  }

  function ChainAfterCall(chain: Chain, call: Call): Chain {
    match call
    case CallGet(_, _) => chain
    case CallAdd(_, step) => chain + [step]
    case CallPop => ChainAfter(chain, PopOp)
  }

  /** Adds name the live frontier, and a hash names one chain. */
  ghost predicate Legal(chainOf: Bytes -> Chain, chain: Chain, calls: seq<Call>)
    decreases |calls|
  {
    calls != [] ==>
      && (calls[0].CallAdd? ==>
            && calls[0].previous == Tip(chain) && WellFormed(chain + [calls[0].step])
            && chainOf(calls[0].step.id.hash) == chain + [calls[0].step])
      && Legal(chainOf, ChainAfterCall(chain, calls[0]), calls[1..])
  }

  ghost predicate HashesNameChains(chainOf: Bytes -> Chain, l: Ledger) {
    forall id :: id in l.known ==> l.known[id] == chainOf(id.hash)
  }

  lemma {:induction false} LegalFresh(c: Config, chainOf: Bytes -> Chain, step: Step)
    requires Good(c) && HashesNameChains(chainOf, c.ledger)
    requires WellFormed(c.ledger.chain + [step]) && chainOf(step.id.hash) == c.ledger.chain + [step]
    ensures FreshStep(c.ledger, step) && step.id.height == Tip(c.ledger.chain).height + 1
  {
    hide WellFormedStep, OverlayOk, EntryOk, ViewOk, CacheOk, Logged;
    TipIsOn(c.ledger.chain);
    assert (c.ledger.chain + [step])[|c.ledger.chain|] == step;
  }

  lemma {:induction false} NextKnown(c: Config, call: Call, v: View, c': Config, chainOf: Bytes -> Chain)
    requires Next(c, call, v, c') && HashesNameChains(chainOf, c.ledger)
    requires call.CallAdd? ==> chainOf(call.step.id.hash) == c.ledger.chain + [call.step]
    ensures HashesNameChains(chainOf, c'.ledger) && c'.ledger.chain == ChainAfterCall(c.ledger.chain, call)
  {
    hide FreshStep, Starts, Replay, HitHolds, HitClean, Tip, From;
  }

  /** Calls made one after the other are a run: what is proved of runs holds of the manager. */
  method Run(m: Manager, calls: seq<Call>, ghost chainOf: Bytes -> Chain) returns (vs: seq<View>, ghost cs: seq<Config>)
    requires m.Valid() && Legal(chainOf, m.chain, calls) && HashesNameChains(chainOf, m.Picture())
    modifies m, m.owner.Keys
    ensures m.Valid() && IsRun(cs, calls, vs) && cs[0] == old(m.Now()) && cs[|calls|] == m.Now()
    ensures forall k :: 0 <= k < |vs| && vs[k].Historical? ==> vs[k].overlay in m.owner
  {
    hide Good, LedgerOk, Represents, Next, WellFormed, FreshStep, HashesNameChains, Tip, OnChain;
    vs, cs := [], [m.Now()];
    assert calls[0..] == calls;
    for k := 0 to |calls|
      invariant m.Valid() && Legal(chainOf, m.chain, calls[k..]) && HashesNameChains(chainOf, m.Picture())
      invariant fresh(m.owner.Keys - old(m.owner.Keys))
      invariant |vs| == k && |cs| == k + 1 && cs[0] == old(m.Now()) && cs[k] == m.Now()
      invariant forall j :: 0 <= j < k ==> Next(cs[j], calls[j], vs[j], cs[j + 1])
      invariant forall j :: 0 <= j < k && vs[j].Historical? ==> vs[j].overlay in m.owner
    {
      ghost var before := m.Now();
      assert calls[k..][0] == calls[k] && calls[k..][1..] == calls[k + 1..];
      var v := Do(m, calls[k], chainOf);
      NextKnown(before, calls[k], v, m.Now(), chainOf);
      vs, cs := vs + [v], cs + [m.Now()];
    }
  }

  method Do(m: Manager, call: Call, ghost chainOf: Bytes -> Chain) returns (v: View)
    requires m.Valid() && Legal(chainOf, m.chain, [call]) && HashesNameChains(chainOf, m.Picture())
    modifies m, m.owner.Keys
    ensures m.Valid() && Next(old(m.Now()), call, v, m.Now())
    ensures fresh(m.owner.Keys - old(m.owner.Keys)) && old(m.owner.Keys) <= m.owner.Keys
    ensures v.Historical? ==> v.overlay in m.owner
  {
    hide Good, LedgerOk, Represents, WellFormed, FreshStep, HashesNameChains, Tip, OnChain;
    v := Missing;
    match call {
      case CallGet(id, evicted) =>
        v := m.Get(id, evicted);
      case CallAdd(previous, step) =>
        LegalFresh(m.Now(), chainOf, step);
        var ok, _ := m.Add(previous, step, {});
      case CallPop =>
        var crashed := m.Pop();
    }
  }

  // ---- A reading that goes wrong ----

  /** A first Get caches the overlay with the frontier it was built for. */
  lemma {:induction false} FirstGet(c: Config, v: View, c': Config, s: Step, x: Step)
    requires c.ledger.chain == [s, x] && s.id.height == 1 && x.id.height == 2 && c.ledger.l1 == map[]
    requires c.ledger.l2 == map[]
    requires Next(c, CallGet(s.id, {}), v, c')
    ensures v.Historical? && c'.store == c.store && c'.ledger.chain == [s, x] && c'.ledger.l2 == map[]
    ensures c'.ledger.l1 == map[s.id := RollbackCache(x.id, v.overlay)]
    ensures Held(c'.ledger, v.overlay) == Replay(map[], [s, x], 1, 2)
    ensures c'.ledger.known == c.ledger.known
  {
    hide Replay, HitHolds, HitClean;
    assert OnChain(c.ledger.chain, s.id) && s.id != x.id;
  }

  /** After the second step was replaced, the overlay is taken as it is. */
  lemma {:induction false} SecondGet(c: Config, v: View, c': Config, s: Step, x: Step, y: Step, o: MemDb)
    requires c.ledger.chain == [s, y] && s.id.height == 1 && x.id.height == y.id.height == 2
    requires c.ledger.l1 == map[s.id := RollbackCache(x.id, o)] && c.ledger.l2 == map[]
    requires Next(c, CallGet(s.id, {}), v, c')
    ensures v == Historical(o, c.store.front) && c'.store == c.store && c'.ledger.chain == [s, y]
    ensures Held(c'.ledger, o) == Held(c.ledger, o)
  {
    hide Replay, HitHolds, HitClean;
    ReplayNothing(Held(c.ledger, o), [s, y], 2);
    assert OnChain(c.ledger.chain, s.id) && s.id != y.id;
  }

  /** A step that writes nothing, one that replaces it and writes k: the overlay built
      on the first reads what the second wrote. */
  lemma {:induction false} StaleAnswer(store: Store, s: Step, x: Step, y: Step, k: Bytes, value: Bytes)
    requires Represents(store, [s, y]) && s.changes == [] && x.changes == [] && y.changes == [Put(k, value)]
    requires !Reserved(k)
    ensures Get(ViewState(Replay(map[], [s, x], 1, 2), store.front), k) == Some(value)
    ensures Get(StateOf([s]), k) == None
  {
    var raw, chain := Replay(map[], [s, x], 1, 2), [s, y];
    assert chain[..1] == [s] && [s][..0] == [];
    BareStepTouches(x, k);
    BareStepTouches(s, k);
    ApplyUntouched(map[], StepPatch(s), k);
    OneWriteReads(StateOf([s]), y, k, value);
    assert TouchedIn([s, x], 1, 1) == {};
    assert k !in TouchedIn([s, x], 1, 2);
    ReplayReads(map[], [s, x], 1, 2, k);
    assert k !in raw;
    assert Get(ViewState(raw, store.front), k) == Get(Decode(store.front), k);
  }

  /** A step whose hash was never met goes on the frontier. */
  method Grow(m: Manager, previous: HashHeight, step: Step)
    requires m.Valid() && previous == Tip(m.chain) && WellFormedStep(step) && step.id.height == |m.chain| + 1
    requires forall id :: id in m.known ==> id.hash != step.id.hash
    modifies m, m.owner.Keys
    ensures m.Valid() && m.Picture() == Appended(old(m.Picture()), step) && fresh(m.owner.Keys - old(m.owner.Keys))
  {
    hide Good, Tip, WellFormed, FreshStep, OnChain;
    FreshHere(m.Now(), step);
    var ok, _ := m.Add(previous, step, {});
  }

  lemma {:induction false} FreshHere(c: Config, step: Step)
    requires Good(c) && step.id.height == |c.ledger.chain| + 1 && WellFormedStep(step)
    requires forall id :: id in c.ledger.known ==> id.hash != step.id.hash
    ensures FreshStep(c.ledger, step) && Tip(c.ledger.chain).height == |c.ledger.chain|
  {
    hide OverlayOk, EntryOk, ViewOk, CacheOk, Logged, WellFormedStep;
    TipIsOn(c.ledger.chain);
    forall i | 0 <= i < |c.ledger.chain| ensures c.ledger.chain[i].id.hash != step.id.hash {
      assert c.ledger.chain[i].id in c.ledger.known;
    }
  }

  /** Two momentums, the second of which writes nothing, and a view of the first. */
  method ViewFirst(s: Step, x: Step) returns (m: Manager, o: MemDb)
    requires s.id.height == 1 && x.id.height == 2 && s.id.hash != x.id.hash && s.changes == [] && x.changes == []
    ensures fresh(m) && fresh(m.owner.Keys) && m.Valid() && o in m.owner && m.chain == [s, x]
    ensures m.known == map[s.id := [s], x.id := [s, x]]
    ensures m.l1 == map[s.id := RollbackCache(x.id, o)] && m.l2 == map[] && o.raw == Replay(map[], [s, x], 1, 2)
  {
    hide Good, Replay, Next;
    m := new Manager();
    Grow(m, ZERO_ID, s);
    Grow(m, s.id, x);
    ghost var before := m.Now();
    var first := m.Get(s.id, {});
    FirstGet(before, first, m.Now(), s, x);
    o := first.overlay;
  }

  /** The second one replaced. */
  method Replace(m: Manager, s: Step, x: Step, y: Step)
    requires m.Valid() && m.chain == [s, x] && m.known == map[s.id := [s], x.id := [s, x]]
    requires y.id.height == 2 && WellFormedStep(y) && y.id.hash != s.id.hash && y.id.hash != x.id.hash
    modifies m, m.owner.Keys
    ensures m.Valid() && m.chain == [s, y] && fresh(m.owner.Keys - old(m.owner.Keys))
    ensures m.Picture() == old(m.Picture()).(chain := m.chain, known := m.known)
  {
    hide Good, WellFormed, WellFormedStep;
    var popped := m.Pop();
    assert m.chain == [s];
    Grow(m, s.id, y);
  }

  /** Two momentums, a view of the first, the second replaced by one that writes k, and
      the first once more: its view now answers k, which it never held. */
  method StaleReading(s: Step, x: Step, y: Step, k: Bytes, value: Bytes) returns (m: Manager, v: View)
    requires s.id.height == 1 && x.id.height == y.id.height == 2
    requires s.id.hash != x.id.hash && s.id.hash != y.id.hash && x.id.hash != y.id.hash
    requires s.changes == [] && x.changes == [] && y.changes == [Put(k, value)] && !Reserved(k) && value != []
    ensures fresh(m) && m.Valid() && m.chain == [s, y] && v.Historical?
    ensures OrEmpty(Get(Reads(v), k)) == value && OrEmpty(Get(StateOf([s]), k)) == []
  {
    hide Good, StateOf, Replay, ViewState, Next;
    var o;
    m, o := ViewFirst(s, x);
    WritesOne(y, k, value);
    Replace(m, s, x, y);
    ghost var before := m.Now();
    v := m.Get(s.id, {});
    SecondGet(before, v, m.Now(), s, x, y, o);
    GoodParts(m.Now());
    StaleAnswer(m.store, s, x, y, k, value);
  }

  lemma WritesOne(step: Step, k: Bytes, value: Bytes)
    requires step.changes == [Put(k, value)] && !Reserved(k)
    ensures WellFormedStep(step)
  {
  }

  lemma GoodParts(c: Config)
    requires Good(c)
    ensures Represents(c.store, c.ledger.chain) && LedgerOk(c.ledger) && WellFormed(c.ledger.chain)
  {
  }

  lemma ServedUnfolds(l: Ledger, id: HashHeight, o: MemDb, evicted: set<HashHeight>, front: Raw)
    ensures Served(l, id, o, evicted, front) ==
            Circulated(Remembered(Stretched(Opened(l, id, o), id, o), id, o, evicted), id, o, front)
  {
  }

  lemma {:induction false} HitOwned(c: Config, id: HashHeight)
    requires Good(c) && Hit(c.ledger, id).Some?
    ensures Hit(c.ledger, id).value.raw in c.ledger.owner
  {
    hide Represents, LedgerOk;
    HitEntry(c.ledger, id);
  }

  lemma OnChainHeight(chain: Chain, id: HashHeight)
    requires OnChain(chain, id)
    ensures id.height <= |chain|
  {
  }
}
