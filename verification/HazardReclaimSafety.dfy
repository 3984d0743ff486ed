/**
 What every reachable state of hazard reclamation keeps, as long as each orphan a scan frees was
 retired before that scan's walk began: a node a guard holds is named by its cell and is not freed.
 */
module HazardReclaimSafety {
  import opened HazardReclaim

  // ---- readers and their cells --------------------------------------------------------------------

  // A guard's cells are its own, name what it holds, and name what it has published.
  ghost predicate ReaderOk(cells: map<Cell, Ptr>, rows: set<nat>, perRow: nat, r: nat, d: Reader) {
    && (d.open ==> d.row == r && r in rows)
    && (!d.open ==> d.pc.Quiet?) && (!d.open || d.pc.Closing? ==> d.hold == map[])
    && (forall k :: k in d.hold ==> k < perRow && Cell(r, k) in cells && cells[Cell(r, k)] == Node(d.hold[k]))
    && (d.pc.Trying? || d.pc.Loaded? || d.pc.Published? ==> d.pc.k < perRow)
    && (d.pc.Published? ==> Cell(r, d.pc.k) in cells && cells[Cell(r, d.pc.k)] == d.pc.p)
  }

  ghost predicate Readers(cells: map<Cell, Ptr>, rows: set<nat>, perRow: nat, rd: map<nat, Reader>) {
    && (forall r :: r in rd ==> ReaderOk(cells, rows, perRow, r, rd[r]))
    && (forall c :: c in cells <==> c.row in rows && c.k < perRow)
  }

  // Only live nodes are in source locations.
  ghost predicate Sources(src: map<nat, Ptr>, status: map<nat, Status>) {
    forall l :: l in src && src[l].Node? ==> src[l].n in status && status[src[l].n].Live?
  }

  ghost predicate Holds(d: Reader, k: nat, n: nat) { k in d.hold && d.hold[k] == n }

  ghost predicate Protected(rd: map<nat, Reader>, status: map<nat, Status>) {
    forall r, k, n :: r in rd && Holds(rd[r], k, n) ==> n in status && !status[n].Freed?
  }

  // ---- scans ------------------------------------------------------------------------------------------

  predicate Scans(p: Pc) { p.Walking? || p.Culling? || p.OrphanGate? || p.SweepLock? || p.Sweeping? }

  function Todo(p: Pc): (r: set<Cell>) { if p.Walking? then p.todo else {} }

  // Of the nodes retired before the walk, those held through a cell already walked are in `named`.
  ghost predicate NamedOk(rd: map<nat, Reader>, named: set<nat>, todo: set<Cell>, prior: set<nat>) {
    forall r, k, n :: r in rd && Holds(rd[r], k, n) && n in prior && Cell(r, k) !in todo ==> n in named
  }

  ghost predicate ScanOk(rd: map<nat, Reader>, status: map<nat, Status>, p: Pc) {
    Scans(p) ==> p.prior <= GoneFrom(status) && NamedOk(rd, p.named, Todo(p), p.prior)
  }

  ghost predicate AllScans(rd: map<nat, Reader>, status: map<nat, Status>, pc: map<nat, Pc>) {
    forall t :: t in pc ==> ScanOk(rd, status, pc[t])
  }

  // A batch under scan was retired before the walk.
  ghost predicate BatchOk(p: Pc, bag: set<nat>) {
    && (Scans(p) ==> bag <= p.prior)
    && (p.Culling? ==> p.left <= bag)
  }

  ghost predicate Batches(pc: map<nat, Pc>, bag: map<nat, set<nat>>) {
    && pc.Keys == bag.Keys
    && forall t :: t in pc ==> BatchOk(pc[t], bag[t])
  }

  // ---- where retired nodes are ---------------------------------------------------------------------------

  // Every retired node is in one batch, in one thread's hand, among the orphans or freed.
  ghost predicate Sorted(status: map<nat, Status>, pc: map<nat, Pc>, bag: map<nat, set<nat>>, orphans: set<nat>) {
    && (forall t, n :: t in bag ==> (n in bag[t] <==> n in status && status[n] == Bagged(t)))
    && (forall t, n :: t in pc ==> (n in Hand(pc[t]) <==> n in status && status[n] == InHand(t)))
    && (forall n :: n in orphans <==> n in status && status[n].Orphaned?)
    && (forall n :: n in status && (status[n].Bagged? || status[n].InHand?) ==> status[n].t in pc && status[n].t in bag)
  }

  function Hand(p: Pc): (r: set<nat>) { if p.Adopting? then p.items else {} }

  // Under the lock nothing but the sweep touches the orphans.
  ghost predicate Locked(pc: map<nat, Pc>, lock: set<nat>, orphans: set<nat>) {
    && (forall t :: t in pc && (pc[t].Sweeping? || pc[t].Storing?) ==> lock == {t})
    && (forall t :: t in pc && pc[t].Sweeping? ==> pc[t].left <= orphans)
  }

  // The accounting, which holds of every run whatever the cells are indexed by.
  ghost predicate Shelf(s: State) {
    && Sources(s.src, s.status)
    && Batches(s.pc, s.bag)
    && Sorted(s.status, s.pc, s.bag, s.orphans)
    && Locked(s.pc, s.lock, s.orphans)
  }

  ghost predicate Core(s: State) {
    && s.byReader
    && Readers(s.cells, s.rows, s.perRow, s.rd)
    && Protected(s.rd, s.status)
    && AllScans(s.rd, s.status, s.pc)
    && Shelf(s)
  }

  // The orphan a sweep frees was retired before the scan began its walk.
  predicate Timely(s: State, st: Step)
    requires Enabled(s, st)
  {
    st.Sweep? ==> st.n in s.pc[st.t].named + s.pc[st.t].prior
  }

  // ---- the accounting ----------------------------------------------------------------------------------------

  lemma BatchesSet(pc: map<nat, Pc>, bag: map<nat, set<nat>>, t: nat, p: Pc, b: set<nat>)
    requires Batches(pc, bag) && t in pc && BatchOk(p, b)
    ensures Batches(pc[t := p], bag[t := b])
  {
    hide BatchOk;
  }

  lemma BagSame(bag: map<nat, set<nat>>, t: nat)
    requires t in bag
    ensures bag[t := bag[t]] == bag
  {
  }

  lemma MoveSources(src: map<nat, Ptr>, status: map<nat, Status>, status': map<nat, Status>)
    requires Sources(src, status)
    requires forall n :: n in status && status[n].Live? ==> n in status' && (Node(n) in src.Values ==> status'[n].Live?)
    ensures Sources(src, status')
  {
    forall l | l in src && src[l].Node?
      ensures src[l].n in status' && status'[src[l].n].Live?
    {
      assert src[l] in src.Values && src[l] == Node(src[l].n);
    }
  }

  // A step by t that may change its pc and batch, the orphans and the statuses.
  lemma ShelfMove(s: State, s': State, t: nat, p: Pc, b: set<nat>)
    requires Shelf(s) && t in s.pc && s'.src == s.src && s'.pc == s.pc[t := p] && s'.bag == s.bag[t := b]
    requires forall n :: n in s.status && s.status[n].Live? ==> n in s'.status && (Node(n) in s.src.Values ==> s'.status[n].Live?)
    requires BatchOk(p, b) && Sorted(s'.status, s'.pc, s'.bag, s'.orphans) && Locked(s'.pc, s'.lock, s'.orphans)
    ensures Shelf(s')
  {
    hide Sources, Batches, Sorted, Locked, BatchOk;
    MoveSources(s.src, s.status, s'.status);
    BatchesSet(s.pc, s.bag, t, p, b);
  }

  lemma ShelfOf(s: State, t: nat)
    requires Shelf(s) && t in s.pc
    ensures t in s.bag && BatchOk(s.pc[t], s.bag[t])
  {
    hide Sources, Sorted, Locked, BatchOk;
  }

  // A step by t that changes only its pc and the lock, and leaves its hand as it was.
  lemma ShelfPc(s: State, s': State, t: nat, p: Pc)
    requires Shelf(s) && t in s.pc && t in s.bag && Hand(p) == Hand(s.pc[t]) && BatchOk(p, s.bag[t])
    requires s'.src == s.src && s'.pc == s.pc[t := p] && s'.bag == s.bag && s'.status == s.status && s'.orphans == s.orphans
    requires (p.Sweeping? || p.Storing? ==> s'.lock == {t}) && (p.Sweeping? ==> p.left <= s.orphans)
    requires s'.lock == s.lock || s.lock == {} || s.pc[t].Sweeping? || s.pc[t].Storing?
    ensures Shelf(s')
  {
    hide Sources, Batches, BatchOk;
    BagSame(s.bag, t);
    ShelfMove(s, s', t, p, s.bag[t]);
  }

  lemma ReaderShelf(s: State, st: Step)
    requires Shelf(s) && ReaderEnabled(s, st)
    ensures Shelf(ReaderApply(s, st))
  {
    hide Sources, Batches, Sorted, Locked, ReaderApply, ReaderEnabled;
    ReaderFrame(s, st);
  }

  // A reader touches its own state and the cells.
  lemma ReaderFrame(s: State, st: Step)
    requires ReaderEnabled(s, st)
    ensures var s' := ReaderApply(s, st); s' == s.(cells := s'.cells, rd := s'.rd)
  {
    if st.Park? || st.Resume? || st.Open? || st.Close? || st.Begin? || st.Load? {} else if st.CloseCell? {} else {}
  }

  lemma SortedRetire(status: map<nat, Status>, pc: map<nat, Pc>, bag: map<nat, set<nat>>, orphans: set<nat>, t: nat, n: nat)
    requires Sorted(status, pc, bag, orphans) && t in pc && t in bag && pc[t].Rest? && n in status && status[n].Live?
    ensures Sorted(status[n := Bagged(t)], pc, bag[t := bag[t] + {n}], orphans)
    ensures Sorted(status[n := InHand(t)], pc[t := Adopting({n})], bag, orphans)
  {
  }

  lemma SortedExit(status: map<nat, Status>, pc: map<nat, Pc>, bag: map<nat, set<nat>>, orphans: set<nat>, t: nat)
    requires Sorted(status, pc, bag, orphans) && t in pc && t in bag && pc[t].Rest?
    ensures Sorted(Restatus(status, bag[t], InHand(t)), pc[t := Adopting(bag[t])], bag[t := {}], orphans)
  {
  }

  lemma SortedMove(status: map<nat, Status>, pc: map<nat, Pc>, bag: map<nat, set<nat>>, orphans: set<nat>, t: nat)
    requires Sorted(status, pc, bag, orphans) && t in pc && pc[t].Adopting?
    ensures Sorted(Restatus(status, pc[t].items, Orphaned), pc[t := Storing], bag, orphans + pc[t].items)
  {
  }

  lemma SortedFree(status: map<nat, Status>, pc: map<nat, Pc>, bag: map<nat, set<nat>>, orphans: set<nat>, t: nat, n: nat, p: Pc)
    requires Sorted(status, pc, bag, orphans) && t in pc && t in bag && Hand(pc[t]) == Hand(p) == {}
    ensures n in bag[t] ==> Sorted(status[n := Freed], pc[t := p], bag[t := bag[t] - {n}], orphans)
    ensures n in orphans ==> Sorted(status[n := Freed], pc[t := p], bag, orphans - {n})
  {
    hide Hand;
  }

  lemma LockedSet(pc: map<nat, Pc>, lock: set<nat>, orphans: set<nat>, t: nat, p: Pc, lock': set<nat>, orphans': set<nat>)
    requires Locked(pc, lock, orphans) && t in pc
    requires (p.Sweeping? || p.Storing? ==> lock' == {t}) && (p.Sweeping? ==> p.left <= orphans')
    requires lock' == lock || lock == {} || pc[t].Sweeping? || pc[t].Storing?
    requires orphans <= orphans' || lock == {} || pc[t].Sweeping?
    ensures Locked(pc[t := p], lock', orphans')
  {
  }

  lemma RetireShelf(s: State, t: nat, n: nat)
    requires Shelf(s) && RetireEnabled(s, Retire(t, n))
    ensures Shelf(RetireApply(s, Retire(t, n)))
  {
    hide Sources, Batches, Sorted, Locked, Restatus;
    var s' := RetireApply(s, Retire(t, n));
    ShelfOf(s, t);
    SortedRetire(s.status, s.pc, s.bag, s.orphans, t, n);
    if t in s.dead {
      BagSame(s.bag, t);
      LockedSet(s.pc, s.lock, s.orphans, t, Adopting({n}), s.lock, s.orphans);
      ShelfMove(s, s', t, Adopting({n}), s.bag[t]);
    } else {
      assert s.pc[t := Rest] == s.pc;
      ShelfMove(s, s', t, Rest, s.bag[t] + {n});
    }
  }

  lemma ExitShelf(s: State, t: nat)
    requires Shelf(s) && RetireEnabled(s, Exit(t)) && s.bag[t] != {}
    ensures Shelf(RetireApply(s, Exit(t)))
  {
    hide Sources, Batches, Locked;
    var s' := RetireApply(s, Exit(t));
    ShelfOf(s, t);
    SortedExit(s.status, s.pc, s.bag, s.orphans, t);
    LockedSet(s.pc, s.lock, s.orphans, t, Adopting(s.bag[t]), s.lock, s.orphans);
    assert forall n :: n in s.status && s.status[n].Live? ==> n !in s.bag[t];
    hide Sorted;
    ShelfMove(s, s', t, Adopting(s.bag[t]), {});
  }

  lemma MoveShelf(s: State, t: nat)
    requires Shelf(s) && RetireEnabled(s, Move(t))
    ensures Shelf(RetireApply(s, Move(t)))
  {
    hide Sources, Batches, Locked;
    var s' := RetireApply(s, Move(t));
    ShelfOf(s, t);
    SortedMove(s.status, s.pc, s.bag, s.orphans, t);
    LockedSet(s.pc, s.lock, s.orphans, t, Storing, {t}, s'.orphans);
    BagSame(s.bag, t);
    assert forall n :: n in s.status && s.status[n].Live? ==> n !in Hand(s.pc[t]);
    hide Sorted;
    ShelfMove(s, s', t, Storing, s.bag[t]);
  }

  lemma RetireStepShelf(s: State, st: Step)
    requires Shelf(s) && RetireEnabled(s, st)
    ensures Shelf(RetireApply(s, st))
  {
    if st.Retire? {
      hide Shelf;
      RetireShelf(s, st.t, st.n);
    } else if st.Exit? && s.bag[st.t] != {} {
      hide Shelf;
      ExitShelf(s, st.t);
    } else if st.Move? {
      hide Shelf;
      MoveShelf(s, st.t);
    } else if st.Store? {
      hide Shelf;
      ShelfOf(s, st.t);
      ShelfPc(s, RetireApply(s, st), st.t, Rest);
    } else {
      hide Batches, Locked, Restatus;
    }
  }

  lemma FreeShelf(s: State, st: Step)
    requires Shelf(s) && ScanEnabled(s, st) && (st.Cull? || st.Sweep?) && st.n !in s.pc[st.t].named
    ensures Shelf(ScanApply(s, st))
  {
    var s', n, t := ScanApply(s, st), st.n, st.t;
    var p := s'.pc[t];
    hide Sources, Batches, Locked;
    ShelfOf(s, t);
    if st.Sweep? { SweepLeft(s, t); }
    assert !s.status[n].Live?;
    hide Sorted;
    SortedFree(s.status, s.pc, s.bag, s.orphans, t, n, p);
    LockedSet(s.pc, s.lock, s.orphans, t, p, s.lock, s'.orphans);
    BagSame(s.bag, t);
    ShelfMove(s, s', t, p, if st.Cull? then s.bag[t] - {n} else s.bag[t]);
  }

  lemma BagGone(s: State, t: nat)
    requires Shelf(s) && t in s.bag
    ensures s.bag[t] <= GoneFrom(s.status)
  {
    hide Sources, Batches, Locked;
  }

  lemma SweepLeft(s: State, t: nat)
    requires Shelf(s) && t in s.pc && s.pc[t].Sweeping?
    ensures s.pc[t].left <= s.orphans && s.lock == {t}
  {
    hide Sources, Batches, Sorted;
  }

  lemma ScanShelf(s: State, st: Step)
    requires Shelf(s) && ScanEnabled(s, st)
    ensures Shelf(ScanApply(s, st))
  {
    hide Shelf;
    if (st.Cull? || st.Sweep?) && st.n !in s.pc[st.t].named {
      FreeShelf(s, st);
    } else {
      var s' := ScanApply(s, st);
      ShelfOf(s, st.t);
      BagGone(s, st.t);
      if st.Sweep? { SweepLeft(s, st.t); }
      hide GoneFrom;
      ShelfPc(s, s', st.t, s'.pc[st.t]);
    }
  }

  lemma ShelfStep(s: State, st: Step)
    requires Shelf(s) && Enabled(s, st)
    ensures Shelf(Apply(s, st))
  {
    hide Shelf, ReaderApply, RetireApply, ScanApply, ReaderEnabled, RetireEnabled, ScanEnabled;
    if ReaderEnabled(s, st) {
      ReaderShelf(s, st);
    } else if RetireEnabled(s, st) {
      RetireStepShelf(s, st);
    } else {
      ScanShelf(s, st);
    }
  }

  // ---- readers' steps ----------------------------------------------------------------------------------------

  // Every node the new reader state holds was held before, or is still in a source location.
  ghost predicate HoldsLess(d: Reader, d': Reader, status: map<nat, Status>) {
    forall k, n :: Holds(d', k, n) ==> Holds(d, k, n) || (n in status && status[n].Live?)
  }

  lemma HoldsScans(rd: map<nat, Reader>, status: map<nat, Status>, pc: map<nat, Pc>, r: nat, d: Reader)
    requires AllScans(rd, status, pc) && r in rd && HoldsLess(rd[r], d, status)
    ensures AllScans(rd[r := d], status, pc)
  {
    forall t | t in pc
      ensures ScanOk(rd[r := d], status, pc[t])
    {
      assert ScanOk(rd, status, pc[t]);
    }
  }

  lemma HoldsProtected(rd: map<nat, Reader>, status: map<nat, Status>, r: nat, d: Reader)
    requires Protected(rd, status) && r in rd && HoldsLess(rd[r], d, status)
    ensures Protected(rd[r := d], status)
  {
  }

  lemma ReadersSet(cells: map<Cell, Ptr>, rows: set<nat>, perRow: nat, rd: map<nat, Reader>, r: nat, d: Reader)
    requires Readers(cells, rows, perRow, rd) && ReaderOk(cells, rows, perRow, r, d)
    ensures Readers(cells, rows, perRow, rd[r := d])
  {
    hide ReaderOk;
  }

  // A store into a cell of r's own row touches no other guard.
  lemma ReadersStore(cells: map<Cell, Ptr>, rows: set<nat>, perRow: nat, rd: map<nat, Reader>, r: nat, k: nat, p: Ptr, d: Reader)
    requires Readers(cells, rows, perRow, rd) && r in rows && k < perRow
    requires ReaderOk(cells[Cell(r, k) := p], rows, perRow, r, d)
    ensures Readers(cells[Cell(r, k) := p], rows, perRow, rd[r := d])
  {
    var cells' := cells[Cell(r, k) := p];
    forall q | q in rd && q != r
      ensures ReaderOk(cells', rows, perRow, q, rd[q])
    {
      assert ReaderOk(cells, rows, perRow, q, rd[q]);
      assert forall j :: Cell(q, j) != Cell(r, k);
    }
  }

  lemma ReaderOf(s: State, r: nat)
    requires Core(s) && r in s.rd
    ensures ReaderOk(s.cells, s.rows, s.perRow, r, s.rd[r]) && Sources(s.src, s.status)
  {
    hide Protected, AllScans, Batches, Sorted, Locked, ReaderOk, Sources;
  }

  lemma SetReaderCore(s: State, r: nat, d: Reader)
    requires Core(s) && r in s.rd && ReaderOk(s.cells, s.rows, s.perRow, r, d) && HoldsLess(s.rd[r], d, s.status)
    ensures Core(SetReader(s, r, d))
  {
    hide Readers, Protected, AllScans, Batches, Sorted, Locked, ReaderOk, Sources, HoldsLess;
    ReadersSet(s.cells, s.rows, s.perRow, s.rd, r, d);
    HoldsProtected(s.rd, s.status, r, d);
    HoldsScans(s.rd, s.status, s.pc, r, d);
  }

  lemma SetCellCore(s: State, r: nat, k: nat, p: Ptr, pc: ReaderPc)
    requires Core(s) && r in s.rd && s.rd[r].open && k < s.perRow
    requires (pc.Published? && pc.k == k && pc.p == p) || pc.Quiet? || (pc.Closing? && s.rd[r].pc.Closing?)
    ensures Core(SetCell(s, r, k, p, pc))
  {
    hide Readers, Protected, AllScans, Batches, Sorted, Locked, Sources;
    ReaderOf(s, r);
    var d := s.rd[r].(pc := pc, hold := s.rd[r].hold - {k});
    ReadersStore(s.cells, s.rows, s.perRow, s.rd, r, k, p, d);
    HoldsProtected(s.rd, s.status, r, d);
    HoldsScans(s.rd, s.status, s.pc, r, d);
  }

  lemma ReaderCells(s: State, st: Step)
    requires Core(s) && ReaderEnabled(s, st) && (st.Publish? || st.Clear? || (st.CloseCell? && s.rd[st.r].pc.k < s.perRow))
    ensures Core(ReaderApply(s, st))
  {
    hide Core, SetReader, SetCell, Sources;
    var d := s.rd[st.r];
    ReaderOf(s, st.r);
    if st.Publish? {
      SetCellCore(s, st.r, d.pc.k, d.pc.p, Published(d.pc.k, d.pc.loc, d.pc.p));
    } else if st.Clear? {
      SetCellCore(s, st.r, st.k, Null, Quiet);
    } else {
      SetCellCore(s, st.r, d.pc.k, Null, Closing(d.pc.k + 1));
    }
  }

  lemma ReaderCore(s: State, st: Step)
    requires Core(s) && ReaderEnabled(s, st)
    ensures Core(ReaderApply(s, st))
  {
    hide Core, ReaderApply;
    if st.Publish? || st.Clear? || (st.CloseCell? && s.rd[st.r].pc.k < s.perRow) {
      ReaderCells(s, st);
    } else {
      ReaderMoves(s, st);
    }
  }

  lemma ByReader(s: State)
    requires Core(s)
    ensures s.byReader
  {
  }

  lemma ReaderStepOk(s: State, st: Step)
    requires s.byReader && ReaderEnabled(s, st) && !st.Publish? && !st.Clear? && (st.CloseCell? ==> s.rd[st.r].pc.k >= s.perRow)
    requires ReaderOk(s.cells, s.rows, s.perRow, st.r, s.rd[st.r]) && Sources(s.src, s.status)
    ensures var d := ReaderApply(s, st).rd[st.r];
            ReaderOk(s.cells, s.rows, s.perRow, st.r, d) && HoldsLess(s.rd[st.r], d, s.status)
    ensures ReaderApply(s, st) == SetReader(s, st.r, ReaderApply(s, st).rd[st.r])
  {
    if st.Reread? {
      if s.src[s.rd[st.r].pc.loc] == s.rd[st.r].pc.p {}
    } else if st.Open? {} else if st.Close? {} else if st.CloseCell? {} else {}
  }

  lemma ReaderMoves(s: State, st: Step)
    requires Core(s) && ReaderEnabled(s, st) && !st.Publish? && !st.Clear? && (st.CloseCell? ==> s.rd[st.r].pc.k >= s.perRow)
    ensures Core(ReaderApply(s, st))
  {
    ByReader(s);
    hide Core, ReaderApply, ReaderOk, Sources, SetReader, HoldsLess;
    ReaderOf(s, st.r);
    ReaderStepOk(s, st);
    SetReaderCore(s, st.r, ReaderApply(s, st).rd[st.r]);
  }

  // ---- retiring ------------------------------------------------------------------------------------------------

  // Statuses may move on: what was retired stays retired, and nothing newly freed is held.
  ghost predicate MovesOn(rd: map<nat, Reader>, status: map<nat, Status>, status': map<nat, Status>) {
    && (forall n :: n in status && !status[n].Live? ==> n in status' && !status'[n].Live?)
    && (forall n :: n in status && !status[n].Freed? ==> n in status' && (status'[n].Freed? ==> Unheld(rd, n)))
  }

  ghost predicate Unheld(rd: map<nat, Reader>, n: nat) { forall r, k :: r in rd ==> !Holds(rd[r], k, n) }

  lemma StatusProtected(rd: map<nat, Reader>, status: map<nat, Status>, status': map<nat, Status>)
    requires Protected(rd, status) && MovesOn(rd, status, status')
    ensures Protected(rd, status')
  {
  }

  lemma StatusScans(rd: map<nat, Reader>, status: map<nat, Status>, status': map<nat, Status>, pc: map<nat, Pc>)
    requires AllScans(rd, status, pc) && MovesOn(rd, status, status')
    ensures AllScans(rd, status', pc)
  {
    hide NamedOk, Unheld;
    forall t | t in pc
      ensures ScanOk(rd, status', pc[t])
    {
      assert ScanOk(rd, status, pc[t]);
    }
  }

  lemma PcScans(rd: map<nat, Reader>, status: map<nat, Status>, pc: map<nat, Pc>, t: nat, p: Pc)
    requires AllScans(rd, status, pc) && ScanOk(rd, status, p)
    ensures AllScans(rd, status, pc[t := p])
  {
    hide ScanOk;
  }

  // A step by t that leaves readers and cells alone.
  lemma ThreadCore(s: State, s': State, t: nat, p: Pc)
    requires Core(s) && Shelf(s') && t in s.pc && s'.pc == s.pc[t := p]
    requires s'.byReader == s.byReader && s'.cells == s.cells && s'.rows == s.rows && s'.perRow == s.perRow && s'.rd == s.rd
    requires MovesOn(s.rd, s.status, s'.status) && ScanOk(s.rd, s'.status, p)
    ensures Core(s')
  {
    hide Readers, Protected, AllScans, Shelf, MovesOn, ScanOk;
    StatusProtected(s.rd, s.status, s'.status);
    StatusScans(s.rd, s.status, s'.status, s.pc);
    PcScans(s.rd, s'.status, s.pc, t, p);
  }

  lemma ScanOf(s: State, t: nat)
    requires Core(s) && t in s.pc
    ensures ScanOk(s.rd, s.status, s.pc[t]) && t in s.bag && BatchOk(s.pc[t], s.bag[t])
  {
    hide Readers, Protected, ScanOk;
    ShelfOf(s, t);
  }

  lemma WriteCore(s: State, st: Step)
    requires Core(s) && RetireEnabled(s, st) && (st.Alloc? || st.Write?)
    ensures Core(RetireApply(s, st))
  {
    hide Readers, Protected, AllScans, Shelf, Restatus;
    RetireStepShelf(s, st);
    if st.Alloc? {
      var status' := s.status[st.n := Live];
      assert MovesOn(s.rd, s.status, status');
      StatusProtected(s.rd, s.status, status');
      StatusScans(s.rd, s.status, status', s.pc);
    }
  }

  // What a retiring step does to its thread and to statuses.
  lemma RetireFacts(s: State, st: Step, s': State)
    requires RetireEnabled(s, st) && !st.Alloc? && !st.Write? && s' == RetireApply(s, st)
    ensures st.t in s'.pc && s'.pc == s.pc[st.t := s'.pc[st.t]] && !Scans(s'.pc[st.t])
    ensures s'.byReader == s.byReader && s'.cells == s.cells && s'.rows == s.rows && s'.perRow == s.perRow && s'.rd == s.rd
  {
    hide Restatus;
    if st.Retire? {} else if st.Exit? {} else if st.Move? {} else {}
  }

  // Nothing is freed, and what was retired stays so.
  lemma RetireMovesOn(s: State, st: Step, s': State)
    requires RetireEnabled(s, st) && !st.Alloc? && !st.Write? && s' == RetireApply(s, st)
    ensures MovesOn(s.rd, s.status, s'.status)
  {
    hide Unheld;
    if st.Retire? {} else if st.Exit? {} else if st.Move? {} else {}
  }

  lemma RetireStepCore(s: State, st: Step)
    requires Core(s) && RetireEnabled(s, st)
    ensures Core(RetireApply(s, st))
  {
    hide Core, Shelf, RetireApply, MovesOn;
    if st.Alloc? || st.Write? {
      WriteCore(s, st);
    } else {
      var s' := RetireApply(s, st);
      CoreShelf(s);
      RetireStepShelf(s, st);
      RetireFacts(s, st, s');
      RetireMovesOn(s, st, s');
      ThreadCore(s, s', st.t, s'.pc[st.t]);
    }
  }

  lemma CoreShelf(s: State)
    requires Core(s)
    ensures Shelf(s)
  {
    hide Readers, Protected, AllScans, Shelf;
  }

  // ---- scanning ----------------------------------------------------------------------------------------------------

  lemma StartNamed(s: State)
    requires Readers(s.cells, s.rows, s.perRow, s.rd)
    ensures NamedOk(s.rd, {}, s.cells.Keys, GoneFrom(s.status))
  {
    forall r, k, n | r in s.rd && Holds(s.rd[r], k, n)
      ensures Cell(r, k) in s.cells
    {
      assert ReaderOk(s.cells, s.rows, s.perRow, r, s.rd[r]);
    }
  }

  // Walking one cell: what is held through it now is named from now on.
  lemma WalkNamed(s: State, named: set<nat>, todo: set<Cell>, prior: set<nat>, c: Cell)
    requires Readers(s.cells, s.rows, s.perRow, s.rd) && NamedOk(s.rd, named, todo, prior) && c in s.cells
    ensures NamedOk(s.rd, if s.cells[c].Node? then named + {s.cells[c].n} else named, todo - {c}, prior)
  {
    forall r, k, n | r in s.rd && Holds(s.rd[r], k, n) && Cell(r, k) == c
      ensures s.cells[c] == Node(n)
    {
      assert ReaderOk(s.cells, s.rows, s.perRow, r, s.rd[r]);
    }
  }

  // A node retired before a finished walk and not found by it is held by nobody.
  lemma UnnamedUnheld(rd: map<nat, Reader>, named: set<nat>, prior: set<nat>, n: nat)
    requires NamedOk(rd, named, {}, prior) && n in prior && n !in named
    ensures Unheld(rd, n)
  {
  }

  lemma FreeCore(s: State, st: Step)
    requires Core(s) && ScanEnabled(s, st) && (st.Cull? || st.Sweep?) && st.n !in s.pc[st.t].named && st.n in s.pc[st.t].prior
    ensures Core(ScanApply(s, st))
  {
    hide Core, NamedOk, Shelf;
    var p := s.pc[st.t];
    var s' := ScanApply(s, st);
    CoreShelf(s);
    ScanOf(s, st.t);
    ScanShelf(s, st);
    UnnamedUnheld(s.rd, p.named, p.prior, st.n);
    hide Unheld;
    assert MovesOn(s.rd, s.status, s'.status);
    assert GoneFrom(s'.status) == GoneFrom(s.status);
    hide MovesOn;
    ThreadCore(s, s', st.t, s'.pc[st.t]);
  }

  lemma SameStatus(rd: map<nat, Reader>, status: map<nat, Status>)
    ensures MovesOn(rd, status, status)
  {
  }

  lemma ScanFacts(s: State, st: Step, s': State)
    requires ScanEnabled(s, st) && s' == ScanApply(s, st)
    ensures st.t in s'.pc && s'.pc == s.pc[st.t := s'.pc[st.t]]
    ensures s'.byReader == s.byReader && s'.cells == s.cells && s'.rows == s.rows && s'.perRow == s.perRow && s'.rd == s.rd
  {
    if st.Cull? {} else if st.Sweep? {} else if st.ScanStart? {} else if st.Walk? {} else {}
  }

  // The pc after a step that frees nothing.
  lemma ScanPcOk(s: State, st: Step)
    requires Core(s) && ScanEnabled(s, st) && ScanApply(s, st).status == s.status
    ensures ScanOk(s.rd, s.status, ScanApply(s, st).pc[st.t])
  {
    hide Core;
    ScanOf(s, st.t);
    CoreReaders(s);
    hide Readers;
    var p := s.pc[st.t];
    if st.ScanStart? {
      StartNamed(s);
      hide NamedOk;
    } else if st.Walk? {
      WalkNamed(s, p.named, p.todo, p.prior, st.c);
      hide NamedOk;
    } else {
      hide NamedOk;
    }
  }

  lemma ScanPc(s: State, st: Step)
    requires Core(s) && ScanEnabled(s, st) && ScanApply(s, st).status == s.status
    ensures Core(ScanApply(s, st))
  {
    hide Core, Shelf, ScanApply, MovesOn, ScanOk;
    var s' := ScanApply(s, st);
    CoreShelf(s);
    ScanShelf(s, st);
    ScanPcOk(s, st);
    SameStatus(s.rd, s.status);
    ScanFacts(s, st, s');
    ThreadCore(s, s', st.t, s'.pc[st.t]);
  }

  lemma CoreReaders(s: State)
    requires Core(s)
    ensures Readers(s.cells, s.rows, s.perRow, s.rd)
  {
    hide Readers, Protected, AllScans, Shelf;
  }

  lemma ScanCore(s: State, st: Step)
    requires Core(s) && ScanEnabled(s, st) && (st.Sweep? ==> st.n in s.pc[st.t].named + s.pc[st.t].prior)
    ensures Core(ScanApply(s, st))
  {
    hide Core;
    if (st.Cull? || st.Sweep?) && st.n !in s.pc[st.t].named {
      if st.Cull? { ScanOf(s, st.t); }
      FreeCore(s, st);
    } else {
      ScanPc(s, st);
    }
  }

  lemma CoreStep(s: State, st: Step)
    requires Core(s) && Enabled(s, st) && Timely(s, st)
    ensures Core(Apply(s, st))
  {
    hide Core, ReaderApply, RetireApply, ScanApply, ReaderEnabled, RetireEnabled, ScanEnabled;
    if ReaderEnabled(s, st) {
      ReaderCore(s, st);
    } else if RetireEnabled(s, st) {
      RetireStepCore(s, st);
    } else {
      ScanCore(s, st);
    }
  }
}
