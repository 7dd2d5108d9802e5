/** Patches of the key-value store: forward replay, rollback patches, and the
    replay "without override" that rebuilds past states. A database answers a
    `State`; what it holds is a `Raw` map, where an empty string is a tombstone
    and a present value carries a leading zero byte. */
module Patches {
  import opened Bytes

  datatype Entry = Put(key: Bytes, value: Bytes) | Delete(key: Bytes)
  type Patch = seq<Entry>
  type State = map<Bytes, Bytes>
  type Raw = map<Bytes, Bytes>

  function Get(s: State, k: Bytes): Option<Bytes> {
    if k in s then Some(s[k]) else None
  }

  /** The reading of `DisableNotFound`: absent and empty are the same. */
  function OrEmpty(o: Option<Bytes>): Bytes {
    if o.Some? then o.value else []
  }

  function Exists(value: Bytes): (raw: Bytes)
    ensures raw != [] && raw[1..] == value
  {
    [0] + value
  }

  /** What `enableDeleteDB` answers for each key of a raw map. */
  function Decode(raw: Raw): (s: State)
    ensures forall k :: Get(s, k) == if k in raw && raw[k] != [] then Some(raw[k][1..]) else None
  {
    map k | k in raw && raw[k] != [] :: raw[k][1..]
  }

  lemma SameReadsSameState(a: State, b: State)
    requires forall k :: Get(a, k) == Get(b, k)
    ensures a == b
  {
    forall k ensures k in a <==> k in b {
      assert Get(a, k) == Get(b, k);
    }
    forall k | k in a ensures a[k] == b[k] {
      assert Get(a, k) == Get(b, k);
    }
  }

  ghost function Touched(p: Patch): set<Bytes> {
    set i | 0 <= i < |p| :: p[i].key
  }

  lemma TouchedLast(p: Patch)
    requires p != []
    ensures Touched(p) == Touched(p[..|p| - 1]) + {p[|p| - 1].key}
  {
    var q := p[..|p| - 1];
    forall k | k in Touched(p) ensures k in Touched(q) + {p[|p| - 1].key} {
      var i :| 0 <= i < |p| && p[i].key == k;
      if i < |q| { assert q[i].key == k; }
    }
    forall k | k in Touched(q) ensures k in Touched(p) {
      var i :| 0 <= i < |q| && q[i].key == k;
      assert p[i].key == k;
    }
  }

  function ApplyEntry(s: State, e: Entry): State {
    match e
    case Put(k, v) => s[k := v]
    case Delete(k) => s - {k}
  }

  /** The meaning of a patch: its entries in order. */
  function Apply(s: State, p: Patch): State {
    if p == [] then s else ApplyEntry(Apply(s, p[..|p| - 1]), p[|p| - 1])
  }

  lemma {:induction false} ApplyUntouched(s: State, p: Patch, k: Bytes)
    requires k !in Touched(p)
    ensures Get(Apply(s, p), k) == Get(s, k)
  {
    if p != [] {
      TouchedLast(p);
      ApplyUntouched(s, p[..|p| - 1], k);
    }
  }

  /** A later patch wins key by key. */
  lemma {:induction false} ApplyConcat(s: State, p: Patch, q: Patch)
    ensures Apply(s, p + q) == Apply(Apply(s, p), q)
  {
    if q == [] {
      assert p + q == p;
    } else {
      assert (p + q)[..|p + q| - 1] == p + q[..|q| - 1];
      ApplyConcat(s, p, q[..|q| - 1]);
    }
  }

  /** What a patch leaves at a key it touches does not depend on what was there. */
  lemma {:induction false} ApplyTouched(s: State, t: State, p: Patch, k: Bytes)
    requires k in Touched(p)
    ensures Get(Apply(s, p), k) == Get(Apply(t, p), k)
  {
    TouchedLast(p);
    if k != p[|p| - 1].key { ApplyTouched(s, t, p[..|p| - 1], k); }
  }

  /** A patch applied twice is applied once. */
  lemma {:induction false} ApplyTwice(s: State, p: Patch)
    ensures Apply(Apply(s, p), p) == Apply(s, p)
  {
    hide Apply;
    var once := Apply(s, p);
    forall k ensures Get(Apply(once, p), k) == Get(once, k) {
      if k in Touched(p) { ApplyTouched(once, s, p, k); } else { ApplyUntouched(once, p, k); }
    }
    SameReadsSameState(Apply(once, p), once);
  }

  /** `patchApplier` over an `enableDeleteDB`: deletions are written as tombstones. */
  function RawEntry(raw: Raw, e: Entry): Raw {
    match e
    case Put(k, v) => raw[k := Exists(v)]
    case Delete(k) => raw[k := []]
  }

  function RawApply(raw: Raw, p: Patch): Raw {
    if p == [] then raw else RawEntry(RawApply(raw, p[..|p| - 1]), p[|p| - 1])
  }

  lemma {:induction false} RawApplyDecodes(raw: Raw, p: Patch)
    ensures Decode(RawApply(raw, p)) == Apply(Decode(raw), p)
  {
    if p != [] { RawApplyDecodes(raw, p[..|p| - 1]); }
  }

  method ApplyPatch(raw: Raw, patch: Patch) returns (result: Raw)
    ensures result == RawApply(raw, patch)
    ensures Decode(result) == Apply(Decode(raw), patch)
  {
    result := raw;
    for i := 0 to |patch|
      invariant result == RawApply(raw, patch[..i])
    {
      assert patch[..i + 1][..i] == patch[..i];
      match patch[i] {
        case Put(k, v) => result := result[k := Exists(v)];
        case Delete(k) => result := result[k := []];
      }
    }
    assert patch[..|patch|] == patch;
    RawApplyDecodes(raw, patch);
  }

  /** What undoes an entry on a database that answers `s`. */
  function RollbackEntry(s: State, e: Entry): Entry {
    if e.key in s then Put(e.key, s[e.key]) else Delete(e.key)
  }

  function Rollback(s: State, p: Patch): (r: Patch)
    ensures |r| == |p|
  {
    seq(|p|, i requires 0 <= i < |p| => RollbackEntry(s, p[i]))
  }

  lemma RollbackLast(s: State, p: Patch)
    requires p != []
    ensures Rollback(s, p)[..|p| - 1] == Rollback(s, p[..|p| - 1])
    ensures Rollback(s, p)[|p| - 1] == RollbackEntry(s, p[|p| - 1])
  {
  }

  /** `patchRollback` reads the database before the patch for every entry, so a
      key written twice gets the same rollback entry twice. */
  method RollbackPatch(db: State, patch: Patch) returns (rb: Patch)
    ensures rb == Rollback(db, patch)
  {
    rb := [];
    for i := 0 to |patch|
      invariant rb == Rollback(db, patch)[..i]
    {
      var key := patch[i].key;
      match Get(db, key) {
        case None => rb := rb + [Delete(key)];
        case Some(value) => rb := rb + [Put(key, value)];
      }
    }
  }

  lemma {:induction false} ApplyRollbackReads(s: State, t: State, p: Patch, k: Bytes)
    ensures Get(Apply(t, Rollback(s, p)), k) == if k in Touched(p) then Get(s, k) else Get(t, k)
  {
    if p != [] {
      RollbackLast(s, p);
      TouchedLast(p);
      ApplyRollbackReads(s, t, p[..|p| - 1], k);
    }
  }

  /** Undoing: whatever the patch repeats or deletes, replaying its rollback
      patch restores the state it was applied to. */
  lemma RollbackUndoes(s: State, p: Patch)
    ensures Apply(Apply(s, p), Rollback(s, p)) == s
  {
    var undone := Apply(Apply(s, p), Rollback(s, p));
    forall k ensures Get(undone, k) == Get(s, k) {
      ApplyRollbackReads(s, Apply(s, p), p, k);
      if k !in Touched(p) { ApplyUntouched(s, p, k); }
    }
    SameReadsSameState(undone, s);
  }

  /** `patchApplierWO`: an overlay keeps the first entry it sees for a key, and a
      deletion is kept as a present but empty value. */
  function OverlayEntry(o: Raw, e: Entry): Raw {
    if e.key in o then o
    else match e
         case Put(k, v) => o[k := Exists(v)]
         case Delete(k) => o[k := Exists([])]
  }

  function Overlay(o: Raw, p: Patch): Raw {
    if p == [] then o else OverlayEntry(Overlay(o, p[..|p| - 1]), p[|p| - 1])
  }

  method ApplyWithoutOverride(overlay: Raw, patch: Patch) returns (result: Raw)
    ensures result == Overlay(overlay, patch)
  {
    result := overlay;
    for i := 0 to |patch|
      invariant result == Overlay(overlay, patch[..i])
    {
      assert patch[..i + 1][..i] == patch[..i];
      var key := patch[i].key;
      if key !in result {
        match patch[i] {
          case Put(k, v) => result := result[k := Exists(v)];
          case Delete(k) => result := result[k := Exists([])];
        }
      }
    }
    assert patch[..|patch|] == patch;
  }

  /** Replaying a rollback patch without override adds exactly the touched keys
      not yet there, each with the value it had before the patch. */
  lemma {:induction false} OverlayReads(o: Raw, s: State, p: Patch)
    ensures Overlay(o, Rollback(s, p)).Keys == o.Keys + Touched(p)
    ensures forall k :: k in o ==> Overlay(o, Rollback(s, p))[k] == o[k]
    ensures forall k :: k in Touched(p) - o.Keys ==>
              Overlay(o, Rollback(s, p))[k] == Exists(OrEmpty(Get(s, k)))
  {
    if p != [] {
      RollbackLast(s, p);
      TouchedLast(p);
      OverlayReads(o, s, p[..|p| - 1]);
    }
  }
}
