/**
 The stack arena: one reservation from which any number of threads carve page-rounded regions by a
 fetch-and-add, each leaving the lowest page of its region uncommitted as a guard.

 Sizes and offsets are 64-bit and wrap.  Masking with the complement of pageSize - 1 is written as
 subtracting the remainder, which is what it does for a page size that is a power of two.  One step
 is one access to the offset or one commit; `asked`, the sum of all sizes added to the offset, and
 `given`, the regions that passed the bounds check, are history.
 */
module StackArena {
  import opened Options

  const WORD_LIMIT: nat := 0x1_0000_0000_0000_0000

  function RoundUp(raw: nat, page: nat): (size: nat)
    requires 0 < page
  {
    var x := (raw + page - 1) % WORD_LIMIT;
    x - x % page
  }

  // Without overflow the rounding is the least multiple of the page not below the request.
  lemma RoundUpIsLeast(raw: nat, page: nat)
    requires 0 < page && raw + page - 1 < WORD_LIMIT
    ensures RoundUp(raw, page) % page == 0 && raw <= RoundUp(raw, page) < raw + page
  {
    RemainderGone(raw + page - 1, page);
    SmallMod(raw + page - 1);
    hide RoundUp;
    RoundUpIs(raw, page);
  }

  lemma SmallMod(x: nat)
    requires x < WORD_LIMIT
    ensures x % WORD_LIMIT == x
  {
  }

  lemma RoundUpIs(raw: nat, page: nat)
    requires 0 < page && (raw + page - 1) % WORD_LIMIT == raw + page - 1
    ensures RoundUp(raw, page) == raw + page - 1 - (raw + page - 1) % page
  {
  }

  lemma RemainderGone(x: nat, page: nat)
    requires 0 < page
    ensures (x - x % page) % page == 0 && x - x % page <= x && x - page < x - x % page
  {
    assert x - x % page == page * (x / page);
    MultipleMod(x / page, page);
  }

  lemma MultipleMod(k: nat, page: nat)
    requires 0 < page
    ensures page * k % page == 0
  {
    assert page * k == page * k + 0;
    DivUnique(page * k, page, k, 0);
  }

  lemma DivUnique(x: nat, page: nat, q: nat, r: nat)
    requires 0 < page && x == page * q + r && r < page
    ensures x / page == q && x % page == r
  {
    var q', r' := x / page, x % page;
    if q < q' {
      Apart(page, q, q', r, r');
    } else if q' < q {
      Apart(page, q', q, r', r);
    }
  }

  lemma Apart(page: nat, a: nat, b: nat, r: nat, r': nat)
    requires a < b && r < page
    ensures page * a + r < page * b + r'
  {
    assert page * b == page * a + page * (b - a);
    assert page * (b - a) >= page by { AtLeastOnce(page, b - a); }
  }

  lemma AtLeastOnce(page: nat, k: nat)
    requires k >= 1
    ensures page * k >= page
  {
  }

  lemma SumOfMultiples(a: nat, b: nat, page: nat)
    requires 0 < page && a % page == 0 && b % page == 0
    ensures (a + b) % page == 0
  {
    assert a == page * (a / page) && b == page * (b / page);
    assert a + b == page * (a / page + b / page);
    MultipleMod(a / page + b / page, page);
  }

  lemma NoMultipleBetween(a: nat, b: nat, page: nat)
    requires 0 < page && a % page == 0 && b % page == 0 && a <= b < a + page
    ensures a == b
  {
    assert b == page * (a / page) + (b - a);
    DivUnique(b, page, a / page, b - a);
  }

  // A whole number of pages is its own rounding.
  lemma RoundUpExact(x: nat, page: nat)
    requires 0 < page && x % page == 0 && x + page - 1 < WORD_LIMIT
    ensures RoundUp(x, page) == x
  {
    RoundUpIsLeast(x, page);
    hide RoundUp;
    NoMultipleBetween(x, RoundUp(x, page), page);
  }

  // ---- the arena -------------------------------------------------------------------------------------

  datatype Region = Region(at: nat, size: nat)

  // What one request does: how much it adds to the offset, and the region it gets.
  datatype Carved = Carved(size: nat, region: Option<Region>)

  function Carve(page: nat, total: nat, offset: nat, raw: nat): (c: Carved)
    requires 0 < page
    ensures c.region.Some? ==> c.region.value == Region(offset, c.size) && page < c.size && offset + c.size <= total
  {
    var size := RoundUp(raw, page);
    if size <= page then Carved(0, None)
    else if offset > total || size > total - offset then Carved(size, None)
    else Carved(size, Some(Region(offset, size)))
  }

  // The arena as one thread sees it; `at` is relative to the base of the reservation, and commits
  // succeed.
  class FiberStackArena {
    const pageSize: nat
    const totalSize: nat
    var offset: nat

    constructor (page: nat, capacity: nat)
      ensures pageSize == page && totalSize == capacity && offset == 0
    {
      pageSize, totalSize, offset := page, capacity, 0;
    }

    method AllocateStack(rawSize: nat) returns (r: Option<Region>)
      requires 0 < pageSize
      modifies this
      ensures var c := Carve(pageSize, totalSize, old(offset), rawSize);
              r == c.region && offset == if c.size == 0 then old(offset) else (old(offset) + c.size) % WORD_LIMIT
    {
      var size := RoundUp(rawSize, pageSize);
      if size <= pageSize { return None; }
      var current := offset;
      offset := (offset + size) % WORD_LIMIT;
      if current > totalSize || size > totalSize - current { return None; }
      return Some(Region(current, size));
    }
  }

  // The arena with any number of threads.
  datatype Pc = Idle(got: seq<Region>) | Committing(r: Region)

  datatype State = State(page: nat, total: nat, offset: nat, pc: map<nat, Pc>, committed: seq<Region>, asked: nat, given: seq<Region>)

  datatype Step = Bump(t: nat, raw: nat) | Commit(t: nat, ok: bool)

  predicate Enabled(s: State, st: Step)
  {
    match st
    case Bump(t, raw) => 0 < s.page && t in s.pc && s.pc[t].Idle? && raw < WORD_LIMIT
    case Commit(t, _) => t in s.pc && s.pc[t].Committing?
  }

  function Apply(s: State, st: Step): (s': State)
    requires Enabled(s, st)
  {
    match st
    case Bump(t, raw) =>
      var c := Carve(s.page, s.total, s.offset, raw);
      var s1 := if c.size == 0 then s else s.(offset := (s.offset + c.size) % WORD_LIMIT, asked := s.asked + c.size);
      if c.region.None? then s1.(pc := s.pc[t := Idle([])])
      else s1.(pc := s.pc[t := Committing(c.region.value)], given := s.given + [c.region.value])
    case Commit(t, ok) =>
      var r := s.pc[t].r;
      // All of the region but its lowest page.
      if ok then s.(pc := s.pc[t := Idle([r])], committed := s.committed + [r]) else s.(pc := s.pc[t := Idle([])])
  }

  ghost predicate Init(s: State) {
    0 < s.page && s.offset == 0 && s.asked == 0 && s.given == [] && s.committed == [] && forall t :: t in s.pc ==> s.pc[t] == Idle([])
  }

  ghost predicate Run(s: State, steps: seq<Step>, s': State)
    decreases |steps|
  {
    if steps == [] then s' == s
    else Enabled(s, steps[0]) && Run(Apply(s, steps[0]), steps[1..], s')
  }

  ghost predicate RegionOk(page: nat, total: nat, r: Region) {
    0 < page < r.size && r.at % page == 0 && r.size % page == 0 && r.at + r.size <= total
  }

  // Regions in the order of their fetch-and-adds, one after the other.
  ghost predicate Laid(given: seq<Region>, page: nat, total: nat, asked: nat) {
    && (forall i :: 0 <= i < |given| ==> RegionOk(page, total, given[i]) && given[i].at + given[i].size <= asked)
    && (forall i, j :: 0 <= i < j < |given| ==> given[i].at + given[i].size <= given[j].at)
  }

  ghost predicate Inv(s: State) {
    && 0 < s.page && s.offset == s.asked && s.asked % s.page == 0
    && Laid(s.given, s.page, s.total, s.asked)
    && (forall t :: t in s.pc && s.pc[t].Committing? ==> s.pc[t].r in s.given)
    && (forall i :: 0 <= i < |s.committed| ==> s.committed[i] in s.given)
    && (forall t :: t in s.pc && s.pc[t].Idle? && s.pc[t].got != [] ==> s.pc[t].got[0] in s.committed)
  }

  lemma RoundUpMultiple(raw: nat, page: nat)
    requires 0 < page
    ensures RoundUp(raw, page) % page == 0
  {
    RemainderGone((raw + page - 1) % WORD_LIMIT, page);
  }

  lemma InvStep(s: State, st: Step)
    requires Inv(s) && Enabled(s, st) && Apply(s, st).asked < WORD_LIMIT
    ensures Inv(Apply(s, st))
  {
    if st.Bump? {
      RoundUpMultiple(st.raw, s.page);
      var size := RoundUp(st.raw, s.page);
      SumOfMultiples(s.asked, size, s.page);
      hide RoundUp;
      BumpInv(s, st.t, st.raw, size);
    } else {
      CommitInv(s, st.t, st.ok);
    }
  }

  lemma BumpInv(s: State, t: nat, raw: nat, size: nat)
    requires Inv(s) && Enabled(s, Bump(t, raw)) && size == RoundUp(raw, s.page) && Apply(s, Bump(t, raw)).asked < WORD_LIMIT
    requires size % s.page == 0 && (s.asked + size) % s.page == 0
    ensures Inv(Apply(s, Bump(t, raw)))
  {
    hide RoundUp, Laid, RegionOk;
    var r := Region(s.offset, size);
    LaidMore(s.given, s.page, s.total, s.asked, size);
    if size > s.page && s.offset <= s.total && size <= s.total - s.offset {
      assert forall q :: q in s.given ==> q in s.given + [r];
      assert r in s.given + [r];
    }
  }

  lemma LaidMore(given: seq<Region>, page: nat, total: nat, asked: nat, size: nat)
    requires Laid(given, page, total, asked) && 0 < page && asked % page == 0 && size % page == 0
    ensures Laid(given, page, total, asked + size)
    ensures size > page && asked <= total && size <= total - asked ==> Laid(given + [Region(asked, size)], page, total, asked + size)
  {
    if size > page && asked <= total && size <= total - asked {
      assert RegionOk(page, total, Region(asked, size));
      hide RegionOk;
    }
  }

  lemma CommitInv(s: State, t: nat, ok: bool)
    requires Inv(s) && Enabled(s, Commit(t, ok))
    ensures Inv(Apply(s, Commit(t, ok)))
  {
    hide Laid;
    var r := s.pc[t].r;
    assert forall q :: q in s.committed ==> q in s.committed + [r];
    assert r in s.committed + [r];
  }

  // asked only grows, so its bound at the end bounds it throughout.
  lemma {:induction false} AskedGrows(s: State, steps: seq<Step>, s': State)
    requires Run(s, steps, s')
    ensures s.asked <= s'.asked
    decreases |steps|
  {
    hide RoundUp;
    if steps != [] {
      AskedGrows(Apply(s, steps[0]), steps[1..], s');
    }
  }

  lemma {:induction false} InvRun(s: State, steps: seq<Step>, s': State)
    requires Inv(s) && Run(s, steps, s') && s'.asked < WORD_LIMIT
    ensures Inv(s') && s'.page == s.page && s'.total == s.total
    decreases |steps|
  {
    if steps != [] {
      AskedGrows(Apply(s, steps[0]), steps[1..], s');
      InvStep(s, steps[0]);
      hide Inv, RoundUp;
      InvRun(Apply(s, steps[0]), steps[1..], s');
    }
  }

  // Is byte a inside the committed part of the region?
  predicate Committed(r: Region, page: nat, a: int) { r.at + page <= a < r.at + r.size }
  predicate OnGuard(r: Region, page: nat, a: int) { r.at <= a < r.at + page }
  predicate Inside(r: Region, a: int) { r.at <= a < r.at + r.size }

  // While the sizes asked for sum to less than 2^64: every region handed out is page-aligned and within
  // the reservation, no two share a byte, and no byte of anybody's guard page is ever committed.
  lemma StacksAreApart(s0: State, steps: seq<Step>, s: State, i: nat, j: nat, a: int)
    requires Init(s0) && Run(s0, steps, s) && s.asked < WORD_LIMIT && i < |s.given| && j < |s.given|
    ensures 0 < s.page && s.given[i].at % s.page == 0 && s.given[i].at + s.given[i].size <= s.total && s.given[i].size > s.page
    ensures i != j ==> !(Inside(s.given[i], a) && Inside(s.given[j], a))
    ensures forall k :: 0 <= k < |s.committed| ==> s.committed[k] in s.given && !(Committed(s.committed[k], s.page, a) && OnGuard(s.given[i], s.page, a))
    ensures forall t :: t in s.pc && s.pc[t].Idle? && s.pc[t].got != [] ==> s.pc[t].got[0] in s.given
  {
    hide Run;
    InvRun(s0, steps, s);
    assert RegionOk(s.page, s.total, s.given[i]) && RegionOk(s.page, s.total, s.given[j]);
    forall k | 0 <= k < |s.committed|
      ensures !(Committed(s.committed[k], s.page, a) && OnGuard(s.given[i], s.page, a))
    {
      var q :| 0 <= q < |s.given| && s.given[q] == s.committed[k];
      assert RegionOk(s.page, s.total, s.given[q]);
      if q < i {} else if q > i {} else {}
    }
  }

  lemma DifferenceOfMultiples(a: nat, b: nat, page: nat)
    requires 0 < page && a % page == 0 && b % page == 0 && b <= a
    ensures (a - b) % page == 0
  {
    assert a == page * (a / page) && b == page * (b / page);
    assert a - b == page * (a / page - b / page);
    if a / page < b / page {
      Apart(page, a / page, b / page, 0, 0);
    }
    MultipleMod(a / page - b / page, page);
  }

  // What a request of whole pages does.
  lemma BumpWhole(s: State, t: nat, size: nat)
    requires Enabled(s, Bump(t, size)) && s.page < size && size % s.page == 0 && size + s.page - 1 < WORD_LIMIT
    ensures var fits := s.offset <= s.total && size <= s.total - s.offset;
            Apply(s, Bump(t, size)) ==
            s.(offset := (s.offset + size) % WORD_LIMIT, asked := s.asked + size,
               pc := s.pc[t := if fits then Committing(Region(s.offset, size)) else Idle([])],
               given := if fits then s.given + [Region(s.offset, size)] else s.given)
  {
    RoundUpExact(size, s.page);
    hide RoundUp;
  }

  // The bound is needed in every arena that has a region to give: a request too large to be met still
  // moves the offset, and one that takes it round to zero makes the next request receive the first
  // region again.
  lemma OverlapAfterWrap(page: nat, total: nat, size: nat) returns (s0: State, steps: seq<Step>, s: State)
    requires 0 < page < size <= total < WORD_LIMIT && size + page < WORD_LIMIT && WORD_LIMIT % page == 0 && size % page == 0
    ensures Init(s0) && s0.page == page && s0.total == total && Run(s0, steps, s) && s.asked == WORD_LIMIT + size
    ensures |s.given| == 2 && s.given[0] == s.given[1] == Region(0, size)
  {
    s0 := State(page, total, 0, map[0 := Idle([])], [], 0, []);
    var big, r := WORD_LIMIT - size, Region(0, size);
    DifferenceOfMultiples(WORD_LIMIT, size, page);
    BumpWhole(s0, 0, size);
    var s1 := State(page, total, size, map[0 := Committing(r)], [], size, [r]);
    SmallMod(size);
    assert s1 == Apply(s0, Bump(0, size));
    var s2 := Apply(s1, Commit(0, true));
    assert s2 == State(page, total, size, map[0 := Idle([r])], [r], size, [r]);
    BumpWhole(s2, 0, big);
    var s3 := State(page, total, 0, map[0 := Idle([])], [r], WORD_LIMIT, [r]);
    assert s3 == Apply(s2, Bump(0, big));
    BumpWhole(s3, 0, size);
    s := Apply(s3, Bump(0, size));
    hide RoundUp, Apply;
    steps := [Bump(0, size), Commit(0, true), Bump(0, big), Bump(0, size)];
    FourSteps(s0, s1, s2, s3, s, steps);
  }

  lemma FourSteps(s0: State, s1: State, s2: State, s3: State, s: State, steps: seq<Step>)
    requires |steps| == 4 && Enabled(s0, steps[0]) && s1 == Apply(s0, steps[0]) && Enabled(s1, steps[1]) && s2 == Apply(s1, steps[1])
    requires Enabled(s2, steps[2]) && s3 == Apply(s2, steps[2]) && Enabled(s3, steps[3]) && s == Apply(s3, steps[3])
    ensures Run(s0, steps, s)
  {
    hide Apply, Enabled;
    assert Run(s, steps[4..], s);
    assert Run(s3, steps[3..], s) by { assert steps[3..][1..] == steps[4..]; }
    assert Run(s2, steps[2..], s) by { assert steps[2..][1..] == steps[3..]; }
    assert Run(s1, steps[1..], s) by { assert steps[1..][1..] == steps[2..]; }
  }
}
