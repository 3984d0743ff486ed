/**
 The global fiber pool: what a stack class promises and what it reserves, building the stacks of one
 class, numbering fibers densely across classes and finding them again by number or by an address on
 their stack.
 */
module FiberPool {
  import opened Options
  import opened StackArena

  datatype StackClass = Standard | Tiny | Deep

  function UsableFor(c: StackClass, page: nat): (n: nat)
  {
    match c
    case Tiny => 2 * page
    case Deep => 508 * 1024
    case Standard => 60 * 1024
  }

  function RegionFor(c: StackClass, page: nat): (n: nat) { UsableFor(c, page) + page }

  // The spacing of a class's stacks in its arena.
  function Stride(c: StackClass, page: nat): (n: nat)
    requires 0 < page
  {
    RoundUp(RegionFor(c, page), page)
  }

  // A region, less its guard page, has at least the usable bytes promised, and exactly those when the
  // page size divides them.
  lemma RegionKeepsPromise(c: StackClass, page: nat)
    requires 0 < page && RegionFor(c, page) + page - 1 < WORD_LIMIT
    ensures Stride(c, page) % page == 0 && Stride(c, page) - page >= UsableFor(c, page)
    ensures Stride(c, page) == RegionFor(c, page) <==> UsableFor(c, page) % page == 0
    ensures UsableFor(c, page) > 0 ==> Stride(c, page) > page
  {
    var u, region, stride := UsableFor(c, page), RegionFor(c, page), Stride(c, page);
    RoundUpIsLeast(region, page);
    hide RoundUp, UsableFor;
    if u % page == 0 {
      DivUnique(page, page, 1, 0);
      SumOfMultiples(u, page, page);
      NoMultipleBetween(region, stride, page);
    } else if stride == region {
      LessOnePage(u, page);
    }
  }

  lemma LessOnePage(u: nat, page: nat)
    requires 0 < page && (u + page) % page == 0
    ensures u % page == 0
  {
    var k, r := u / page, u % page;
    assert u + page == page * (k + 1) + r;
    DivUnique(u + page, page, k + 1, r);
  }

  // ---- building the stacks of a class -----------------------------------------------------------------------

  // Where the i-th of equally spaced regions begins.
  function Offset(i: nat, stride: nat): (n: nat) { i * stride }

  // The stacks of one class.  Construction fails, an exception in the source, unless the class is empty
  // or the page size divides its usable bytes: the reservation is n regions before rounding.
  method BuildClass(c: StackClass, n: nat, page: nat) returns (stacks: Option<seq<nat>>)
    requires 0 < page && RegionFor(c, page) + page - 1 < WORD_LIMIT && Offset(n, Stride(c, page)) < WORD_LIMIT
    ensures stacks.Some? <==> n == 0 || UsableFor(c, page) % page == 0
    ensures stacks.Some? ==> |stacks.value| == n && forall i :: 0 <= i < n ==> stacks.value[i] == Offset(i, Stride(c, page))
    ensures stacks.Some? ==> Offset(n, RegionFor(c, page)) == Offset(n, Stride(c, page))
  {
    hide RoundUp, UsableFor, Offset;
    RegionKeepsPromise(c, page);
    UsablePositive(c, page);
    var region := RegionFor(c, page);
    ghost var stride := Stride(c, page);
    Bounds(n, stride, region);
    var arena := new FiberStackArena(page, Offset(n, region));
    var done: seq<nat> := [];
    for i := 0 to n
      invariant arena.pageSize == page && arena.totalSize == Offset(n, region) && arena.offset == Offset(i, stride)
      invariant |done| == i && forall k :: 0 <= k < i ==> done[k] == Offset(k, stride)
      invariant i > 0 ==> Offset(i, stride) <= Offset(n, region)
    {
      NextOffset(i, n, stride);
      var r := arena.AllocateStack(region);
      if r.None? { return None; }
      done := done + [r.value.at];
    }
    return Some(done);
  }

  lemma UsablePositive(c: StackClass, page: nat)
    requires 0 < page
    ensures UsableFor(c, page) > 0
  {
  }

  lemma NextOffset(i: nat, n: nat, stride: nat)
    requires i < n && Offset(n, stride) < WORD_LIMIT
    ensures Offset(i + 1, stride) == Offset(i, stride) + stride == (Offset(i, stride) + stride) % WORD_LIMIT <= Offset(n, stride)
  {
    Enough(n, i + 1, stride);
    OffsetStep(i, stride);
    hide Offset;
    SmallMod(Offset(i, stride) + stride);
  }

  lemma OffsetStep(i: nat, stride: nat)
    ensures Offset(i + 1, stride) == Offset(i, stride) + stride
  {
  }

  lemma Bounds(n: nat, stride: nat, region: nat)
    ensures Offset(0, stride) == Offset(0, region) == 0
    ensures n > 0 && stride > region ==> Offset(n, stride) > Offset(n, region)
  {
    if n > 0 && stride > region {
      assert n * stride == n * region + n * (stride - region);
      AtLeastOnce(n, stride - region);
    }
  }

  // Construction on a platform with 16 KiB pages.
  lemma SixteenKibPages()
    ensures UsableFor(Standard, 16384) % 16384 != 0 && UsableFor(Deep, 16384) % 16384 != 0 && UsableFor(Tiny, 16384) % 16384 == 0
    ensures UsableFor(Standard, 4096) % 4096 == 0 && UsableFor(Deep, 4096) % 4096 == 0
  {
  }

  // ---- pool indices --------------------------------------------------------------------------------------------

  const CLASS_COUNT: nat := 3

  // The number of fibers in the first k classes.
  function Before(sizes: seq<nat>, k: nat): (n: nat)
    requires k <= |sizes|
  {
    if k == 0 then 0 else Before(sizes, k - 1) + sizes[k - 1]
  }

  lemma {:induction false} BeforeGrows(sizes: seq<nat>, j: nat, k: nat)
    requires j < k <= |sizes|
    ensures Before(sizes, j) + sizes[j] <= Before(sizes, k)
  {
    if j < k - 1 { BeforeGrows(sizes, j, k - 1); }
  }

  // The number of the i-th fiber of class k.
  function Number(sizes: seq<nat>, k: nat, i: nat): (n: nat)
    requires k < |sizes|
  {
    Before(sizes, k) + i
  }

  // The constructor's numbering: one counter through all classes.
  method NumberFibers(sizes: seq<nat>) returns (index: seq<seq<nat>>)
    requires |sizes| == CLASS_COUNT
    ensures |index| == CLASS_COUNT
    ensures forall k :: 0 <= k < CLASS_COUNT ==> |index[k]| == sizes[k] && forall i :: 0 <= i < sizes[k] ==> index[k][i] == Number(sizes, k, i)
  {
    index := [];
    var nextIndex := 0;
    for k := 0 to CLASS_COUNT
      invariant |index| == k && nextIndex == Before(sizes, k)
      invariant forall j :: 0 <= j < k ==> |index[j]| == sizes[j] && forall i :: 0 <= i < sizes[j] ==> index[j][i] == Number(sizes, j, i)
    {
      var mine: seq<nat> := [];
      for i := 0 to sizes[k]
        invariant |mine| == i && nextIndex == Before(sizes, k) + i
        invariant forall m :: 0 <= m < i ==> mine[m] == Number(sizes, k, m)
      {
        mine := mine + [nextIndex];
        nextIndex := nextIndex + 1;
      }
      index := index + [mine];
    }
  }

  // The class and position of the fiber with the given number: the numbering's inverse.
  method At(sizes: seq<nat>, poolIndex: nat) returns (r: Option<(nat, nat)>)
    requires |sizes| == CLASS_COUNT
    ensures forall k: nat, i: nat :: k < CLASS_COUNT && i < sizes[k] ==> (r == Some((k, i)) <==> poolIndex == Number(sizes, k, i))
    ensures r.Some? ==> r.value.0 < CLASS_COUNT && r.value.1 < sizes[r.value.0]
    ensures r.None? <==> poolIndex >= Before(sizes, CLASS_COUNT)
  {
    var left := poolIndex;
    for k := 0 to CLASS_COUNT
      invariant poolIndex == Before(sizes, k) + left
    {
      if left < sizes[k] {
        OnlyHere(sizes, k, left);
        return Some((k, left));
      }
      left := left - sizes[k];
    }
    forall k: nat, i: nat | k < CLASS_COUNT && i < sizes[k]
      ensures poolIndex != Number(sizes, k, i)
    {
      BeforeGrows(sizes, k, CLASS_COUNT);
    }
    return None;
  }

  lemma OnlyHere(sizes: seq<nat>, k: nat, i: nat)
    requires k < |sizes| && i < sizes[k]
    ensures forall j: nat, m: nat :: j < |sizes| && m < sizes[j] && Number(sizes, j, m) == Number(sizes, k, i) ==> j == k && m == i
    ensures Number(sizes, k, i) < Before(sizes, |sizes|)
  {
    BeforeGrows(sizes, k, |sizes|);
    forall j: nat, m: nat | j < |sizes| && m < sizes[j] && Number(sizes, j, m) == Number(sizes, k, i)
      ensures j == k && m == i
    {
      if j < k { BeforeGrows(sizes, j, k); } else if k < j { BeforeGrows(sizes, k, j); }
    }
  }

  // ---- from an address to its fiber ------------------------------------------------------------------------------

  // One class's arena: where its reservation lies and how many stacks of what spacing were built in it.
  datatype Arena = Arena(base: nat, total: nat, built: nat, stride: nat)

  predicate Within(a: Arena, addr: nat) { a.base <= addr < a.base + a.total }

  predicate OnStack(a: Arena, i: nat, addr: nat) { i < a.built && a.base + i * a.stride <= addr < a.base + (i + 1) * a.stride }

  // As BuildClass leaves it: the stacks fill the reservation.
  predicate Built(a: Arena) { 0 < a.stride && a.total == a.built * a.stride }

  lemma StackOfAddress(a: Arena, addr: nat)
    requires Built(a) && Within(a, addr)
    ensures var i := (addr - a.base) / a.stride; i < a.built && OnStack(a, i, addr)
    ensures forall j: nat :: OnStack(a, j, addr) ==> j == (addr - a.base) / a.stride
  {
    Quotient(addr - a.base, a.built, a.stride);
    forall j: nat | OnStack(a, j, addr)
      ensures j == (addr - a.base) / a.stride
    {
      OnlyQuotient(addr - a.base, j, a.stride);
    }
  }

  lemma Quotient(d: nat, built: nat, stride: nat)
    requires 0 < stride && d < built * stride
    ensures var i := d / stride; i < built && i * stride <= d < (i + 1) * stride
  {
    var i, r := d / stride, d % stride;
    assert d == i * stride + r;
    assert (i + 1) * stride == i * stride + stride;
    if i >= built { Enough(i, built, stride); }
  }

  lemma OnlyQuotient(d: nat, j: nat, stride: nat)
    requires 0 < stride && j * stride <= d < (j + 1) * stride
    ensures j == d / stride
  {
    assert (j + 1) * stride == j * stride + stride;
    assert d == stride * j + (d - j * stride);
    DivUnique(d, stride, j, d - j * stride);
  }

  lemma Enough(i: nat, built: nat, stride: nat)
    requires i >= built
    ensures i * stride >= built * stride
  {
    assert i * stride == built * stride + (i - built) * stride;
  }

  lemma OnStackWithin(a: Arena, i: nat, addr: nat)
    requires Built(a) && OnStack(a, i, addr)
    ensures Within(a, addr)
  {
    Enough(a.built, i + 1, a.stride);
  }

  // The running fiber, from the address of one of its locals: the one fiber whose region holds the
  // address, guard page included, or none.
  method FiberForStack(arenas: seq<Arena>, addr: nat) returns (r: Option<(nat, nat)>)
    requires forall c :: 0 <= c < |arenas| ==> Built(arenas[c]) && arenas[c].base > 0
    requires forall c, d :: 0 <= c < d < |arenas| ==> !(Within(arenas[c], addr) && Within(arenas[d], addr))
    ensures forall c: nat, i: nat :: c < |arenas| ==> (r == Some((c, i)) <==> OnStack(arenas[c], i, addr))
    ensures r.Some? ==> r.value.0 < |arenas|
  {
    forall c, i | 0 <= c < |arenas| && OnStack(arenas[c], i, addr)
      ensures Within(arenas[c], addr)
    {
      OnStackWithin(arenas[c], i, addr);
    }
    if addr == 0 { return None; }
    for ci := 0 to |arenas|
      invariant forall c :: 0 <= c < ci ==> !Within(arenas[c], addr)
    {
      var a := arenas[ci];
      if a.built > 0 && Within(a, addr) {
        StackOfAddress(a, addr);
        var idx := (addr - a.base) / a.stride;
        if idx >= a.built { return None; }
        return Some((ci, idx));
      }
    }
    return None;
  }
}
