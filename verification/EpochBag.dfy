/**
 The two compaction loops of reclamation, in place on the vector they compact: the calling thread's
 bag in TryReclaim and the orphan store in SweepEpochOrphans.
 */
module EpochBag {
  import opened EpochReclaim

  // The entries a pass with safe epoch m keeps, and those it deletes, both in order.
  function Kept(v: seq<Entry>, m: nat): (r: seq<Entry>)
    ensures forall i :: 0 <= i < |r| ==> r[i].epoch >= m
  {
    if v == [] then [] else Kept(v[..|v| - 1], m) + if v[|v| - 1].epoch < m then [] else [v[|v| - 1]]
  }

  function Dropped(v: seq<Entry>, m: nat): (r: seq<Entry>)
    ensures forall i :: 0 <= i < |r| ==> r[i].epoch < m
  {
    if v == [] then [] else Dropped(v[..|v| - 1], m) + if v[|v| - 1].epoch < m then [v[|v| - 1]] else []
  }

  // Nothing is lost or doubled.
  lemma {:induction false} KeptAndDropped(v: seq<Entry>, m: nat)
    ensures multiset(v) == multiset(Kept(v, m)) + multiset(Dropped(v, m))
  {
    if v != [] {
      var u, e := v[..|v| - 1], v[|v| - 1];
      assert v == u + [e];
      KeptAndDropped(u, m);
      assert Kept(v, m) == Kept(u, m) + if e.epoch < m then [] else [e];
      assert Dropped(v, m) == Dropped(u, m) + if e.epoch < m then [e] else [];
      hide Kept, Dropped;
    }
  }

  lemma KeptNext(v: seq<Entry>, m: nat, i: nat)
    requires i < |v|
    ensures Kept(v[..i + 1], m) == Kept(v[..i], m) + if v[i].epoch < m then [] else [v[i]]
    ensures Dropped(v[..i + 1], m) == Dropped(v[..i], m) + if v[i].epoch < m then [v[i]] else []
  {
    assert v[..i + 1][..i] == v[..i];
  }

  // A vector of retired entries: storage, of which the first `size` elements are in use.
  class Batch {
    var items: array<Entry>
    var size: nat

    ghost predicate Valid()
      reads this
    {
      size <= items.Length
    }

    ghost function Contents(): (v: seq<Entry>)
      requires Valid()
      reads this, items
    {
      items[..size]
    }

    constructor (storage: array<Entry>, n: nat)
      requires n <= storage.Length
      ensures Valid() && items == storage && Contents() == storage[..n]
    {
      items, size := storage, n;
    }

    // The deleters run on `deleted`, in that order; `freed` is how many ran.
    method Compact(safeEpoch: nat) returns (freed: nat, deleted: seq<Entry>)
      requires Valid()
      modifies this`size, items
      ensures Valid() && items == old(items)
      ensures Contents() == Kept(old(Contents()), safeEpoch)
      ensures deleted == Dropped(old(Contents()), safeEpoch) && freed == |deleted|
    {
      ghost var v := Contents();
      var kept := 0;
      freed, deleted := 0, [];
      assert v[..0] == [];
      for i := 0 to size
        invariant kept <= i && items == old(items) && size == |v|
        invariant items[..kept] == Kept(v[..i], safeEpoch)
        invariant items[i..size] == v[i..]
        invariant deleted == Dropped(v[..i], safeEpoch) && freed == |deleted|
      {
        KeptNext(v, safeEpoch, i);
        assert items[i] == items[i..size][0] == v[i];
        if items[i].epoch < safeEpoch {
          deleted := deleted + [items[i]];
          freed := freed + 1;
        } else {
          items[kept] := items[i];
          kept := kept + 1;
        }
        assert items[i + 1..size] == v[i..][1..];
      }
      assert v[..size] == v;
      size := kept;
    }
  }

  // ---- the same loops as the steps of the concurrent model take them -------------------------------------

  function Ptrs(v: seq<Entry>): (r: set<nat>) { set e | e in v :: e.ptr }

  // The iterations from entry i on, on a list from which deleted entries disappear.
  function Pass(v: seq<Entry>, i: nat, m: nat, freed: set<nat>): (r: (seq<Entry>, set<nat>))
    requires i <= |v|
    decreases |v| - i
  {
    if i == |v| then (v, freed)
    else if v[i].epoch < m then Pass(Without(v, i), i, m, freed + {v[i].ptr})
    else Pass(v, i + 1, m, freed)
  }

  // They leave what the loop in place leaves and free what it frees.
  lemma {:induction false} PassIsCompaction(w: seq<Entry>, k: nat, m: nat, freed: set<nat>)
    requires k <= |w|
    ensures Pass(Kept(w[..k], m) + w[k..], |Kept(w[..k], m)|, m, freed + Ptrs(Dropped(w[..k], m)))
         == (Kept(w, m), freed + Ptrs(Dropped(w, m)))
    decreases |w| - k
  {
    var a, d := Kept(w[..k], m), Dropped(w[..k], m);
    if k == |w| {
      assert w[..k] == w && a + w[k..] == a;
    } else {
      var e, v := w[k], a + w[k..];
      KeptNext(w, m, k);
      PassIsCompaction(w, k + 1, m, freed);
      hide Kept, Dropped;
      assert v[|a|] == e;
      if e.epoch < m {
        assert Without(v, |a|) == a + w[k + 1..];
        assert freed + Ptrs(d + [e]) == freed + Ptrs(d) + {e.ptr};
        assert a + [] == a;
      } else {
        assert (a + [e]) + w[k + 1..] == v;
        assert d + [] == d;
      }
    }
  }

  lemma WholePass(w: seq<Entry>, m: nat, freed: set<nat>)
    ensures Pass(w, 0, m, freed) == (Kept(w, m), freed + Ptrs(Dropped(w, m)))
  {
    PassIsCompaction(w, 0, m, freed);
    assert w[..0] == [] && [] + w[0..] == w && freed + {} == freed;
  }

  // The drain of thread t's bag, run to its end.
  function DrainAll(s: State, t: nat): (s': State)
    requires Known(s, t) && s.pc[t].Draining? && s.pc[t].i <= |s.bag[t]|
    ensures t in s'.pc && s'.pc[t].Draining?
    decreases |s.bag[t]| - s.pc[t].i
  {
    if s.pc[t].i == |s.bag[t]| then s else DrainAll(ReclaimApply(s, Drain(t)), t)
  }

  lemma {:induction false} DrainIsPass(s: State, t: nat)
    requires Known(s, t) && s.pc[t].Draining? && s.pc[t].i <= |s.bag[t]|
    ensures var (v, freed) := Pass(s.bag[t], s.pc[t].i, s.pc[t].m, s.pc[t].freed);
            DrainAll(s, t).bag == s.bag[t := v] && DrainAll(s, t).pc[t].freed == freed
    decreases |s.bag[t]| - s.pc[t].i
  {
    if s.pc[t].i < |s.bag[t]| {
      DrainIsPass(ReclaimApply(s, Drain(t)), t);
    }
  }

  lemma DrainIsCompaction(s: State, t: nat)
    requires Known(s, t) && s.pc[t].Draining? && s.pc[t].i == 0
    ensures DrainAll(s, t).bag == s.bag[t := Kept(s.bag[t], s.pc[t].m)]
    ensures DrainAll(s, t).pc[t].freed == s.pc[t].freed + Ptrs(Dropped(s.bag[t], s.pc[t].m))
  {
    DrainIsPass(s, t);
    WholePass(s.bag[t], s.pc[t].m, s.pc[t].freed);
  }

  // The sweep of the orphan store by thread t, under the lock, run to its end.
  function SweepAll(s: State, t: nat): (s': State)
    requires Known(s, t) && s.pc[t].Sweeping? && s.pc[t].i <= |s.orphans|
    ensures t in s'.pc && s'.pc[t].Sweeping?
    decreases |s.orphans| - s.pc[t].i
  {
    if s.pc[t].i == |s.orphans| then s else SweepAll(ReclaimApply(s, Sweep(t)), t)
  }

  lemma {:induction false} SweepIsPass(s: State, t: nat)
    requires Known(s, t) && s.pc[t].Sweeping? && s.pc[t].i <= |s.orphans|
    ensures var (v, freed) := Pass(s.orphans, s.pc[t].i, s.pc[t].m, s.pc[t].freed);
            SweepAll(s, t).orphans == v && SweepAll(s, t).pc[t].freed == freed
    decreases |s.orphans| - s.pc[t].i
  {
    if s.pc[t].i < |s.orphans| {
      SweepIsPass(ReclaimApply(s, Sweep(t)), t);
    }
  }

  lemma SweepIsCompaction(s: State, t: nat)
    requires Known(s, t) && s.pc[t].Sweeping? && s.pc[t].i == 0
    ensures SweepAll(s, t).orphans == Kept(s.orphans, s.pc[t].m)
    ensures SweepAll(s, t).pc[t].freed == s.pc[t].freed + Ptrs(Dropped(s.orphans, s.pc[t].m))
  {
    SweepIsPass(s, t);
    WholePass(s.orphans, s.pc[t].m, s.pc[t].freed);
  }
}
