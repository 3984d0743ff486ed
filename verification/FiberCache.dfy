/**
 The per-worker fiber cache: a stack in a fixed array that spills its upper half to the global pool
 when full and refills from it when empty; the batched return that sorts fibers to the queue of
 their class; and the conservation of fibers over every run of any number of caches.
 */
module FiberCache {
  import opened Options
  import FiberPool

  // ---- what Push and Pop do to the contents, oldest first -------------------------------------------

  function Kept(items: seq<nat>, capacity: nat): (r: seq<nat>)
    ensures r <= items
  {
    if |items| >= capacity && capacity / 2 <= |items| then items[..|items| - capacity / 2] else items
  }

  function Spilled(items: seq<nat>, capacity: nat): (r: seq<nat>)
    ensures Kept(items, capacity) + r == items
  {
    items[|Kept(items, capacity)|..]
  }

  // Pop finds these, `batch` being what the global pool would hand over.
  function Refilled(items: seq<nat>, batch: seq<nat>): (r: seq<nat>) { if items == [] then batch else items }

  // Per-worker free list; only its worker touches it.
  class ThreadLocalCache {
    var localFibers: array<nat>
    var activeCapacity: nat
    var count: nat

    ghost predicate Valid()
      reads this
    {
      2 <= activeCapacity <= localFibers.Length && count <= activeCapacity
    }

    ghost function Contents(): (items: seq<nat>)
      requires Valid()
      reads this, localFibers
    {
      localFibers[..count]
    }

    // The capacity is at least two, and fits the array exactly when the array holds two.
    constructor (storage: array<nat>, runtimeCapacity: nat)
      ensures localFibers == storage && count == 0
      ensures activeCapacity <= storage.Length <==> storage.Length >= 2
      ensures storage.Length >= 2 ==> Valid() && Contents() == []
      ensures 2 <= runtimeCapacity <= storage.Length ==> activeCapacity == runtimeCapacity
    {
      localFibers := storage;
      activeCapacity := if runtimeCapacity <= storage.Length then runtimeCapacity else storage.Length;
      count := 0;
      new;
      if activeCapacity < 2 { activeCapacity := 2; }
    }

    // `spilled` is the batch given to ReturnBatch.
    method Push(f: nat) returns (spilled: seq<nat>)
      requires Valid()
      modifies this`count, localFibers
      ensures Valid() && localFibers == old(localFibers) && activeCapacity == old(activeCapacity)
      ensures Contents() == Kept(old(Contents()), activeCapacity) + [f]
      ensures spilled == Spilled(old(Contents()), activeCapacity)
    {
      ghost var items := Contents();
      spilled := [];
      if count >= activeCapacity {
        var half := activeCapacity / 2;
        spilled := localFibers[count - half..count];
        count := count - half;
      }
      assert localFibers[..count] == Kept(items, activeCapacity);
      localFibers[count] := f;
      count := count + 1;
    }

    method Pop(batch: seq<nat>) returns (r: Option<nat>)
      requires Valid() && |batch| <= activeCapacity
      modifies this`count, localFibers
      ensures Valid() && localFibers == old(localFibers) && activeCapacity == old(activeCapacity)
      ensures var found := Refilled(old(Contents()), batch);
              if found == [] then r == None && Contents() == [] else r == Some(found[|found| - 1]) && Contents() == found[..|found| - 1]
    {
      if count == 0 {
        for i := 0 to |batch|
          invariant localFibers == old(localFibers) && count == old(count) && activeCapacity == old(activeCapacity)
          invariant localFibers[..i] == batch[..i]
        {
          localFibers[i] := batch[i];
        }
        assert localFibers[..|batch|] == batch;
        count := |batch|;
      }
      if count == 0 { return None; }
      count := count - 1;
      return Some(localFibers[count]);
    }
  }

  // ---- returning a batch, sorted by class --------------------------------------------------------------

  const GROUP_SIZE: nat := 64

  // The fibers of one class among those of a batch, in order.
  function OfClass(fibers: seq<nat>, cls: seq<nat>, c: nat): (r: seq<nat>)
    requires |cls| == |fibers|
  {
    if fibers == [] then []
    else
      var n := |fibers| - 1;
      OfClass(fibers[..n], cls[..n], c) + if cls[n] == c then [fibers[n]] else []
  }

  lemma OfClassNext(fibers: seq<nat>, cls: seq<nat>, c: nat, i: nat)
    requires |cls| == |fibers| && i < |fibers|
    ensures OfClass(fibers[..i + 1], cls[..i + 1], c) == OfClass(fibers[..i], cls[..i], c) + if cls[i] == c then [fibers[i]] else []
  {
    assert fibers[..i + 1][..i] == fibers[..i] && cls[..i + 1][..i] == cls[..i];
  }

  // What is grouped for queue c, and what has gone into it or is grouped for it.
  function Grouped(grouped: array2<nat>, n: array<nat>, c: nat): (r: seq<nat>)
    requires c < grouped.Length0 && c < n.Length && n[c] <= grouped.Length1
    reads grouped, n
  {
    var len := n[c];
    seq(len, k requires 0 <= k < len && c < grouped.Length0 && len <= grouped.Length1 reads grouped => grouped[c, k])
  }

  ghost function Sent(queues: seq<seq<nat>>, grouped: array2<nat>, n: array<nat>, c: nat): (r: seq<nat>)
    requires c < |queues| && c < grouped.Length0 && c < n.Length && n[c] <= grouped.Length1
    reads grouped, n
  {
    queues[c] + Grouped(grouped, n, c)
  }

  // Groups of 64 are enqueued as they fill and the rest at the end: each queue gets exactly the
  // fibers of its class, in order, and no group outgrows its buffer.
  method ReturnBatch(fibers: seq<nat>, cls: seq<nat>) returns (queues: seq<seq<nat>>)
    requires |cls| == |fibers| && forall i :: 0 <= i < |cls| ==> cls[i] < FiberPool.CLASS_COUNT
    ensures |queues| == FiberPool.CLASS_COUNT && forall c :: 0 <= c < FiberPool.CLASS_COUNT ==> queues[c] == OfClass(fibers, cls, c)
  {
    queues := [[], [], []];
    var grouped := new nat[FiberPool.CLASS_COUNT, GROUP_SIZE];
    var n := new nat[FiberPool.CLASS_COUNT];
    n[0], n[1], n[2] := 0, 0, 0;
    for i := 0 to |fibers|
      invariant |queues| == FiberPool.CLASS_COUNT && forall c :: 0 <= c < FiberPool.CLASS_COUNT ==> n[c] < GROUP_SIZE
      invariant forall c :: 0 <= c < FiberPool.CLASS_COUNT ==> Sent(queues, grouped, n, c) == OfClass(fibers[..i], cls[..i], c)
    {
      var ci := cls[i];
      forall c | 0 <= c < FiberPool.CLASS_COUNT
        ensures OfClass(fibers[..i + 1], cls[..i + 1], c) == OfClass(fibers[..i], cls[..i], c) + if ci == c then [fibers[i]] else []
      {
        OfClassNext(fibers, cls, c, i);
      }
      queues := File(queues, grouped, n, ci, fibers[i]);
    }
    assert fibers[..|fibers|] == fibers && cls[..|fibers|] == cls;
    queues := [queues[0] + Grouped(grouped, n, 0), queues[1] + Grouped(grouped, n, 1), queues[2] + Grouped(grouped, n, 2)];
  }

  method File(queues: seq<seq<nat>>, grouped: array2<nat>, n: array<nat>, ci: nat, f: nat) returns (r: seq<seq<nat>>)
    requires |queues| == FiberPool.CLASS_COUNT == grouped.Length0 == n.Length && grouped.Length1 == GROUP_SIZE && ci < FiberPool.CLASS_COUNT
    requires forall c :: 0 <= c < FiberPool.CLASS_COUNT ==> n[c] < GROUP_SIZE
    modifies grouped, n
    ensures |r| == FiberPool.CLASS_COUNT && forall c :: 0 <= c < FiberPool.CLASS_COUNT ==> n[c] < GROUP_SIZE
    ensures forall c :: 0 <= c < FiberPool.CLASS_COUNT ==>
                          Sent(r, grouped, n, c) == old(Sent(queues, grouped, n, c)) + if ci == c then [f] else []
  {
    r := queues;
    grouped[ci, n[ci]] := f;
    n[ci] := n[ci] + 1;
    assert Sent(r, grouped, n, ci) == old(Sent(queues, grouped, n, ci)) + [f];
    if n[ci] == GROUP_SIZE {
      r := r[ci := r[ci] + Grouped(grouped, n, ci)];
      n[ci] := 0;
    }
  }

  // ---- every run of every cache ----------------------------------------------------------------------------

  datatype Place = InUse | Cached(w: nat) | Free(c: nat)

  datatype Worker = Worker(capacity: nat, cls: nat, items: seq<nat>)

  // `cls` is the stack class of each fiber; `place` is history.
  datatype State = State(workers: map<nat, Worker>, free: map<nat, set<nat>>, used: set<nat>, cls: map<nat, nat>, place: map<nat, Place>)

  // A worker puts a fiber of the class of its cache back; a worker takes one, `batch` being what the
  // free queue of the class would deliver.
  datatype Step = PushOne(w: nat, f: nat) | PopOne(w: nat, batch: seq<nat>)

  predicate Distinct(v: seq<nat>) { forall i, j :: 0 <= i < j < |v| ==> v[i] != v[j] }

  predicate Enabled(s: State, st: Step)
  {
    st.w in s.workers && s.workers[st.w].cls in s.free &&
    match st
    case PushOne(w, f) => f in s.used && f in s.cls && f in s.place && s.cls[f] == s.workers[w].cls
    case PopOne(w, batch) =>
      && Distinct(batch) && |batch| <= s.workers[w].capacity
      && forall i :: 0 <= i < |batch| ==> batch[i] in s.free[s.workers[w].cls]
  }

  function Elements(v: seq<nat>): (r: set<nat>)
    ensures forall x :: x in r <==> x in v
  {
    set x | x in v
  }

  function Moved(place: map<nat, Place>, v: seq<nat>, to: Place): (r: map<nat, Place>)
    ensures r.Keys == place.Keys && forall x :: x in place ==> r[x] == if x in v then to else place[x]
  {
    map x | x in place :: if x in v then to else place[x]
  }

  function Apply(s: State, st: Step): (s': State)
    requires Enabled(s, st)
  {
    var d := s.workers[st.w];
    match st
    case PushOne(w, f) =>
      var out := Spilled(d.items, d.capacity);
      s.(workers := s.workers[w := d.(items := Kept(d.items, d.capacity) + [f])],
         free := s.free[d.cls := s.free[d.cls] + Elements(out)], used := s.used - {f},
         place := Moved(s.place, out, Free(d.cls))[f := Cached(w)])
    case PopOne(w, batch) =>
      var found := Refilled(d.items, batch);
      var left := if d.items == [] then s.free[d.cls] - Elements(batch) else s.free[d.cls];
      if found == [] then s
      else
        var f := found[|found| - 1];
        s.(workers := s.workers[w := d.(items := found[..|found| - 1])], free := s.free[d.cls := left], used := s.used + {f},
           place := Moved(s.place, found, Cached(w))[f := InUse])
  }

  // Every fiber is in one cache, in the free queue of its own class, or in use.
  ghost predicate Inv(s: State) {
    && s.place.Keys == s.cls.Keys
    && UsedOk(s.used, s.place) && FreeOk(s.free, s.place) && Homes(s) && Caches(s.workers, s.place, s.cls, s.free)
  }

  ghost predicate UsedOk(used: set<nat>, place: map<nat, Place>) {
    forall x :: x in used <==> x in place && place[x].InUse?
  }

  ghost predicate FreeOk(free: map<nat, set<nat>>, place: map<nat, Place>) {
    forall c, x :: c in free ==> (x in free[c] <==> x in place && place[x] == Free(c))
  }

  ghost predicate Homes(s: State)
    requires s.place.Keys == s.cls.Keys
  {
    && (forall x :: x in s.place && s.place[x].Cached? ==> s.place[x].w in s.workers)
    && (forall x :: x in s.place && s.place[x].Free? ==> s.place[x].c in s.free && s.cls[x] == s.place[x].c)
  }

  ghost predicate Caches(workers: map<nat, Worker>, place: map<nat, Place>, cls: map<nat, nat>, free: map<nat, set<nat>>) {
    forall w :: w in workers ==> CacheOk(workers[w], w, place, cls) && workers[w].cls in free
  }

  ghost predicate CacheOk(d: Worker, w: nat, place: map<nat, Place>, cls: map<nat, nat>) {
    && 2 <= d.capacity && |d.items| <= d.capacity && Distinct(d.items)
    && (forall x :: x in d.items <==> x in place && place[x] == Cached(w))
    && (forall x :: x in d.items ==> x in cls && cls[x] == d.cls)
  }

  lemma PrefixFacts(v: seq<nat>, a: seq<nat>, b: seq<nat>)
    requires v == a + b && Distinct(v)
    ensures Distinct(a) && (forall x :: x in v <==> x in a || x in b) && forall x :: x in a ==> x !in b
  {
    assert forall i :: 0 <= i < |a| ==> a[i] == v[i];
    assert forall j :: 0 <= j < |b| ==> b[j] == v[|a| + j];
  }

  // In the cache of a worker other than w.
  predicate CachedBy(p: Place, w: nat) { p.Cached? && p.w != w }

  // The other caches do not notice: no fiber enters or leaves them.
  lemma CachesSet(workers: map<nat, Worker>, place: map<nat, Place>, place': map<nat, Place>, cls: map<nat, nat>,
                  free: map<nat, set<nat>>, free': map<nat, set<nat>>, w: nat, d: Worker)
    requires Caches(workers, place, cls, free) && w in workers && free'.Keys == free.Keys && d.cls == workers[w].cls
    requires place'.Keys == place.Keys
    requires forall x :: x in place && place[x] != place'[x] ==> !CachedBy(place[x], w) && !CachedBy(place'[x], w)
    requires CacheOk(d, w, place', cls)
    ensures Caches(workers[w := d], place', cls, free')
  {
    forall u | u in workers && u != w
      ensures CacheOk(workers[u], u, place', cls)
    {
      assert CacheOk(workers[u], u, place, cls);
    }
  }

  lemma PushCache(d: Worker, w: nat, place: map<nat, Place>, cls: map<nat, nat>, f: nat)
    requires CacheOk(d, w, place, cls) && f in place && place[f].InUse? && f in cls && cls[f] == d.cls
    ensures var k, out := Kept(d.items, d.capacity), Spilled(d.items, d.capacity);
            && CacheOk(d.(items := k + [f]), w, Moved(place, out, Free(d.cls))[f := Cached(w)], cls)
            && forall x :: x in out ==> x in place && place[x] == Cached(w) && x in cls && cls[x] == d.cls
  {
    var k, out := Kept(d.items, d.capacity), Spilled(d.items, d.capacity);
    PrefixFacts(d.items, k, out);
    hide Moved, Kept, Spilled;
    assert f !in d.items;
    assert forall i :: 0 <= i < |k| ==> k[i] in k;
  }

  ghost predicate PushPlaces(place: map<nat, Place>, place': map<nat, Place>, f: nat, out: seq<nat>, c: nat, w: nat) {
    && place'.Keys == place.Keys && f in place && place[f].InUse?
    && (forall x :: x in out ==> x in place && place[x] == Cached(w))
    && (forall x :: x in place ==> place'[x] == if x == f then Cached(w) else if x in out then Free(c) else place[x])
  }

  lemma PushUsed(used: set<nat>, place: map<nat, Place>, place': map<nat, Place>, f: nat, out: seq<nat>, c: nat, w: nat)
    requires UsedOk(used, place) && PushPlaces(place, place', f, out, c, w)
    ensures UsedOk(used - {f}, place')
  {
  }

  lemma PushFree(free: map<nat, set<nat>>, place: map<nat, Place>, place': map<nat, Place>, f: nat, out: seq<nat>, c: nat, w: nat)
    requires FreeOk(free, place) && PushPlaces(place, place', f, out, c, w) && c in free
    ensures FreeOk(free[c := free[c] + Elements(out)], place')
  {
    hide Elements;
  }

  lemma PushHomes(s: State, s': State, f: nat, out: seq<nat>, c: nat, w: nat)
    requires s.place.Keys == s.cls.Keys && Homes(s) && PushPlaces(s.place, s'.place, f, out, c, w)
    requires s'.workers.Keys == s.workers.Keys && s'.free.Keys == s.free.Keys && s'.cls == s.cls && w in s.workers && c in s.free
    requires forall x :: x in out ==> x in s.cls && s.cls[x] == c
    ensures Homes(s')
  {
  }

  lemma CacheAt(s: State, w: nat)
    requires Inv(s) && w in s.workers
    ensures CacheOk(s.workers[w], w, s.place, s.cls)
  {
    hide UsedOk, FreeOk, Homes, CacheOk;
  }

  lemma InUseOf(s: State, f: nat)
    requires Inv(s) && f in s.used
    ensures f in s.place && s.place[f].InUse?
  {
    hide Caches, FreeOk, Homes;
  }

  lemma FreeOf(s: State, c: nat, v: seq<nat>)
    requires Inv(s) && c in s.free && forall i :: 0 <= i < |v| ==> v[i] in s.free[c]
    ensures forall x :: x in v ==> x in s.place && s.place[x] == Free(c) && x in s.cls && s.cls[x] == c
  {
    hide Caches, UsedOk;
    assert forall x :: x in v ==> x in s.free[c];
  }

  lemma PopHomes(s: State, s': State, f: nat, found: seq<nat>, at: Place, w: nat)
    requires s.place.Keys == s.cls.Keys && Homes(s) && PopPlaces(s.place, s'.place, f, found, at, w)
    requires s'.workers.Keys == s.workers.Keys && s'.free.Keys == s.free.Keys && s'.cls == s.cls && w in s.workers
    ensures Homes(s')
  {
  }

  lemma PushInv(s: State, w: nat, f: nat)
    requires Inv(s) && Enabled(s, PushOne(w, f))
    ensures Inv(Apply(s, PushOne(w, f)))
  {
    hide CacheOk, Kept, Spilled, Elements, Moved, Caches, UsedOk, FreeOk, Homes;
    var s' := Apply(s, PushOne(w, f));
    var d := s.workers[w];
    var out := Spilled(d.items, d.capacity);
    CacheAt(s, w);
    InUseOf(s, f);
    PushCache(d, w, s.place, s.cls, f);
    PushUsed(s.used, s.place, s'.place, f, out, d.cls, w);
    PushFree(s.free, s.place, s'.place, f, out, d.cls, w);
    PushHomes(s, s', f, out, d.cls, w);
    CachesSet(s.workers, s.place, s'.place, s.cls, s.free, s'.free, w, s'.workers[w]);
  }

  lemma PopCache(d: Worker, w: nat, place: map<nat, Place>, cls: map<nat, nat>, batch: seq<nat>)
    requires CacheOk(d, w, place, cls) && Refilled(d.items, batch) != [] && Distinct(batch) && |batch| <= d.capacity
    requires forall x :: x in batch ==> x in place && place[x] == Free(d.cls) && x in cls && cls[x] == d.cls
    ensures var found := Refilled(d.items, batch);
            var n := |found| - 1;
            && CacheOk(d.(items := found[..n]), w, Moved(place, found, Cached(w))[found[n] := InUse], cls)
            && (forall x :: x in found ==> x in place && place[x] == if d.items == [] then Free(d.cls) else Cached(w))
  {
    var found := Refilled(d.items, batch);
    var n := |found| - 1;
    PrefixFacts(found, found[..n], [found[n]]);
    hide Moved;
  }

  ghost predicate PopPlaces(place: map<nat, Place>, place': map<nat, Place>, f: nat, found: seq<nat>, at: Place, w: nat) {
    && place'.Keys == place.Keys && f in found
    && (forall x :: x in found ==> x in place && place[x] == at)
    && (forall x :: x in place ==> place'[x] == if x == f then InUse else if x in found then Cached(w) else place[x])
  }

  lemma PopUsed(used: set<nat>, place: map<nat, Place>, place': map<nat, Place>, f: nat, found: seq<nat>, at: Place, w: nat)
    requires UsedOk(used, place) && PopPlaces(place, place', f, found, at, w) && !at.InUse?
    ensures UsedOk(used + {f}, place')
  {
  }

  lemma PopFree(free: map<nat, set<nat>>, place: map<nat, Place>, place': map<nat, Place>, f: nat, found: seq<nat>, at: Place, c: nat, w: nat)
    requires FreeOk(free, place) && PopPlaces(place, place', f, found, at, w) && c in free && (at == Free(c) || at.Cached?)
    ensures FreeOk(free[c := if at.Free? then free[c] - Elements(found) else free[c]], place')
  {
    hide Elements;
  }

  lemma PopInv(s: State, w: nat, batch: seq<nat>)
    requires Inv(s) && Enabled(s, PopOne(w, batch))
    ensures Inv(Apply(s, PopOne(w, batch)))
  {
    hide CacheOk, Elements, Moved, Caches, UsedOk, FreeOk, Homes, Distinct;
    var s' := Apply(s, PopOne(w, batch));
    var d := s.workers[w];
    CacheAt(s, w);
    FreeOf(s, d.cls, batch);
    var found := Refilled(d.items, batch);
    if found != [] {
      PopCache(d, w, s.place, s.cls, batch);
      var f := found[|found| - 1];
      var at := if d.items == [] then Free(d.cls) else Cached(w);
      assert f in found;
      PopUsed(s.used, s.place, s'.place, f, found, at, w);
      PopFree(s.free, s.place, s'.place, f, found, at, d.cls, w);
      PopHomes(s, s', f, found, at, w);
      CachesSet(s.workers, s.place, s'.place, s.cls, s.free, s'.free, w, s'.workers[w]);
    }
  }

  ghost predicate Run(s: State, steps: seq<Step>, s': State)
    decreases |steps|
  {
    if steps == [] then s' == s
    else Enabled(s, steps[0]) && Run(Apply(s, steps[0]), steps[1..], s')
  }

  lemma {:induction false} FibersConserved(s: State, steps: seq<Step>, s': State)
    requires Inv(s) && Run(s, steps, s')
    ensures Inv(s') && s'.place.Keys == s.place.Keys && s'.cls == s.cls
    decreases |steps|
  {
    if steps != [] {
      if steps[0].PushOne? {
        PushInv(s, steps[0].w, steps[0].f);
      } else {
        PopInv(s, steps[0].w, steps[0].batch);
      }
      hide Inv;
      FibersConserved(Apply(s, steps[0]), steps[1..], s');
    }
  }

  // At start every fiber is in the free queue of its class.
  ghost predicate Init(s: State) {
    && s.place.Keys == s.cls.Keys && s.used == {}
    && (forall x :: x in s.place ==> s.place[x] == Free(s.cls[x]) && s.cls[x] in s.free)
    && FreeOk(s.free, s.place)
    && (forall w :: w in s.workers ==> s.workers[w].items == [] && 2 <= s.workers[w].capacity && s.workers[w].cls in s.free)
  }

  // From the start, through any run, every fiber is in exactly one place, and only where fibers of its
  // class belong; no cache outgrows its capacity.
  lemma EveryFiberInOnePlace(s0: State, steps: seq<Step>, s: State, x: nat)
    requires Init(s0) && Run(s0, steps, s) && x in s0.cls
    ensures x in s.place && (x in s.used <==> s.place[x].InUse?)
    ensures forall c :: c in s.free ==> (x in s.free[c] <==> s.place[x] == Free(c)) && (x in s.free[c] ==> c == s0.cls[x])
    ensures forall w :: w in s.workers ==> (x in s.workers[w].items <==> s.place[x] == Cached(w))
    ensures forall w :: w in s.workers && x in s.workers[w].items ==> s.workers[w].cls == s0.cls[x]
    ensures forall w :: w in s.workers ==> |s.workers[w].items| <= s.workers[w].capacity && Distinct(s.workers[w].items)
    ensures (s.place[x].Cached? ==> s.place[x].w in s.workers) && (s.place[x].Free? ==> s.place[x].c in s.free)
  {
    hide Run;
    assert Inv(s0);
    FibersConserved(s0, steps, s);
    forall w | w in s.workers
      ensures CacheOk(s.workers[w], w, s.place, s.cls)
    {
      CacheAt(s, w);
    }
  }
}
