/**
 Hazard pointers with cells in a flat table: readers protect what they load by publishing and
 re-reading, threads retire nodes into private batches, a scan walks the table cell by cell and frees
 what it did not find named.  `byReader` is the design; without it a guard uses the cells of the
 worker it was opened on, the arrangement ForceWorkerCellsForTest brings back.

 One step is one access to shared memory.  A node may be retired once it is in no source location.
 Nodes are named by allocation.  The history is `hold` (the nodes Protect has returned and the guard
 has not since dropped), `status`, and the set `prior` of nodes already retired when a scan's walk began.
 */
module HazardReclaim {

  datatype Ptr = Null | Node(n: nat)

  datatype Cell = Cell(row: nat, k: nat)

  datatype ReaderPc =
    | Quiet
    | Trying(k: nat, loc: nat) | Loaded(k: nat, loc: nat, p: Ptr) | Published(k: nat, loc: nat, p: Ptr)   // Protect
    | Closing(k: nat)                                                                                     // ~HazardGuard

  datatype Reader = Reader(open: bool, row: nat, worker: nat, parked: bool, pc: ReaderPc, hold: map<nat, nat>)

  datatype Pc =
    | Rest
    | Adopting(items: set<nat>) | Storing                          // AdoptOrphans
    | Walking(named: set<nat>, todo: set<Cell>, prior: set<nat>)     // Scan, over the cells
    | Culling(named: set<nat>, left: set<nat>, prior: set<nat>)      // over the batch
    | OrphanGate(named: set<nat>, prior: set<nat>)
    | SweepLock(named: set<nat>, prior: set<nat>)
    | Sweeping(named: set<nat>, left: set<nat>, prior: set<nat>)     // over the orphans

  datatype Status = Live | Bagged(t: nat) | InHand(t: nat) | Orphaned | Freed

  datatype State = State(
    byReader: bool,
    perRow: nat,                    // kCellsPerReader
    rows: set<nat>,
    cells: map<Cell, Ptr>,
    src: map<nat, Ptr>,
    rd: map<nat, Reader>,
    pc: map<nat, Pc>,
    bag: map<nat, set<nat>>,
    dead: set<nat>,
    orphans: set<nat>,
    orphanCount: nat,
    lock: set<nat>,
    status: map<nat, Status>)

  datatype Step =
    | Park(r: nat) | Resume(r: nat, w: nat) | Open(r: nat) | Close(r: nat) | CloseCell(r: nat)
    | Begin(r: nat, k: nat, loc: nat) | Load(r: nat) | Publish(r: nat) | Reread(r: nat) | Clear(r: nat, k: nat)
    | Alloc(n: nat) | Write(loc: nat, p: Ptr)
    | Retire(t: nat, n: nat) | Exit(t: nat) | Move(t: nat) | Store(t: nat)
    | ScanStart(t: nat) | Walk(t: nat, c: Cell) | WalkEnd(t: nat) | Cull(t: nat, n: nat) | CullEnd(t: nat)
    | PassGate(t: nat) | LockSweep(t: nat) | Sweep(t: nat, n: nat) | SweepEnd(t: nat)

  // A reader that is running, on its worker, between calls.
  predicate Ready(s: State, r: nat) { r in s.rd && !s.rd[r].parked && s.rd[r].pc.Quiet? }

  predicate Active(s: State, r: nat) { r in s.rd && !s.rd[r].parked && s.rd[r].open }

  predicate ReaderEnabled(s: State, st: Step)
  {
    match st
    case Park(r) => r in s.rd && !s.rd[r].parked
    case Resume(r, w) => r in s.rd && s.rd[r].parked && forall q :: q in s.rd && !s.rd[q].parked ==> s.rd[q].worker != w
    case Open(r) => Ready(s, r) && !s.rd[r].open && RowOf(s, r) in s.rows
    case Close(r) => Ready(s, r) && s.rd[r].open
    case CloseCell(r) => Active(s, r) && s.rd[r].pc.Closing?
    case Begin(r, k, loc) => Ready(s, r) && s.rd[r].open && k < s.perRow && loc in s.src
    case Load(r) => Active(s, r) && s.rd[r].pc.Trying? && s.rd[r].pc.loc in s.src
    case Publish(r) => Active(s, r) && s.rd[r].pc.Loaded?
    case Reread(r) => Active(s, r) && s.rd[r].pc.Published? && s.rd[r].pc.loc in s.src
    case Clear(r, k) => Ready(s, r) && s.rd[r].open && k < s.perRow
    case _ => false
  }

  predicate RetireEnabled(s: State, st: Step)
  {
    match st
    case Alloc(n) => n !in s.status
    case Write(loc, p) => loc in s.src && (p.Node? ==> p.n in s.status && s.status[p.n].Live?)
    case Retire(t, n) => AtRest(s, t) && n in s.status && s.status[n].Live? && Node(n) !in s.src.Values
    case Exit(t) => AtRest(s, t) && t !in s.dead
    case Move(t) => t in s.pc && s.pc[t].Adopting? && s.lock == {}
    case Store(t) => t in s.pc && s.pc[t].Storing?
    case _ => false
  }

  predicate AtRest(s: State, t: nat) { t in s.pc && t in s.bag && s.pc[t].Rest? }

  predicate ScanEnabled(s: State, st: Step)
  {
    match st
    case ScanStart(t) => AtRest(s, t) && t !in s.dead && (s.bag[t] != {} || s.orphanCount != 0)
    case Walk(t, c) => t in s.pc && s.pc[t].Walking? && c in s.pc[t].todo && c in s.cells
    case WalkEnd(t) => t in s.pc && s.pc[t].Walking? && s.pc[t].todo == {} && t in s.bag
    case Cull(t, n) => t in s.pc && s.pc[t].Culling? && n in s.pc[t].left && t in s.bag && n in s.status
    case CullEnd(t) => t in s.pc && s.pc[t].Culling? && s.pc[t].left == {}
    case PassGate(t) => t in s.pc && s.pc[t].OrphanGate?
    case LockSweep(t) => t in s.pc && s.pc[t].SweepLock? && s.lock == {}
    case Sweep(t, n) => t in s.pc && s.pc[t].Sweeping? && n in s.pc[t].left && n in s.status
    case SweepEnd(t) => t in s.pc && s.pc[t].Sweeping? && s.pc[t].left == {}
    case _ => false
  }

  predicate Enabled(s: State, st: Step) { ReaderEnabled(s, st) || RetireEnabled(s, st) || ScanEnabled(s, st) }

  // Where a guard opened now finds its cells.
  function RowOf(s: State, r: nat): (row: nat)
    requires r in s.rd
  {
    if s.byReader then r else s.rd[r].worker
  }

  function SetReader(s: State, r: nat, d: Reader): (s': State) { s.(rd := s.rd[r := d]) }

  // A store into cell k of r's guard; what that cell protected is protected no longer.
  function SetCell(s: State, r: nat, k: nat, p: Ptr, pc: ReaderPc): (s': State)
    requires r in s.rd
  {
    s.(cells := s.cells[Cell(s.rd[r].row, k) := p], rd := s.rd[r := s.rd[r].(pc := pc, hold := s.rd[r].hold - {k})])
  }

  function ReaderApply(s: State, st: Step): (s': State)
    requires ReaderEnabled(s, st)
  {
    var d := s.rd[st.r];
    match st
    case Park(r) => SetReader(s, r, d.(parked := true))
    case Resume(r, w) => SetReader(s, r, d.(parked := false, worker := w))
    case Open(r) => SetReader(s, r, d.(open := true, row := RowOf(s, r), hold := map[]))
    case Close(r) => SetReader(s, r, d.(pc := Closing(0), hold := map[]))
    case CloseCell(r) =>
      if d.pc.k < s.perRow then SetCell(s, r, d.pc.k, Null, Closing(d.pc.k + 1))
      else SetReader(s, r, d.(pc := Quiet, open := false))
    case Begin(r, k, loc) => SetReader(s, r, d.(pc := Trying(k, loc)))
    case Load(r) => SetReader(s, r, d.(pc := Loaded(d.pc.k, d.pc.loc, s.src[d.pc.loc])))
    case Publish(r) => SetCell(s, r, d.pc.k, d.pc.p, Published(d.pc.k, d.pc.loc, d.pc.p))
    case Reread(r) =>
      if s.src[d.pc.loc] != d.pc.p then SetReader(s, r, d.(pc := Trying(d.pc.k, d.pc.loc)))
      else if d.pc.p.Null? then SetReader(s, r, d.(pc := Quiet))
      else SetReader(s, r, d.(pc := Quiet, hold := d.hold[d.pc.k := d.pc.p.n]))
    case Clear(r, k) => SetCell(s, r, k, Null, Quiet)
  }

  function Restatus(status: map<nat, Status>, ns: set<nat>, to: Status): (r: map<nat, Status>)
  {
    map n | n in status :: if n in ns then to else status[n]
  }

  function RetireApply(s: State, st: Step): (s': State)
    requires RetireEnabled(s, st)
  {
    match st
    case Alloc(n) => s.(status := s.status[n := Live])
    case Write(loc, p) => s.(src := s.src[loc := p])
    case Retire(t, n) =>
      if t in s.dead then s.(status := s.status[n := InHand(t)], pc := s.pc[t := Adopting({n})])
      else s.(status := s.status[n := Bagged(t)], bag := s.bag[t := s.bag[t] + {n}])
    case Exit(t) =>
      if s.bag[t] == {} then s.(dead := s.dead + {t})
      else s.(dead := s.dead + {t}, status := Restatus(s.status, s.bag[t], InHand(t)), bag := s.bag[t := {}],
              pc := s.pc[t := Adopting(s.bag[t])])
    case Move(t) =>
      s.(orphans := s.orphans + s.pc[t].items, status := Restatus(s.status, s.pc[t].items, Orphaned), lock := {t},
         pc := s.pc[t := Storing])
    case Store(t) => s.(orphanCount := |s.orphans|, lock := {}, pc := s.pc[t := Rest])
  }

  // The nodes that have been retired, freed or not.
  function GoneFrom(status: map<nat, Status>): (r: set<nat>) { set n | n in status && !status[n].Live? }

  function ScanApply(s: State, st: Step): (s': State)
    requires ScanEnabled(s, st)
  {
    var p := s.pc[st.t];
    match st
    case ScanStart(t) => s.(pc := s.pc[t := Walking({}, s.cells.Keys, GoneFrom(s.status))])
    case Walk(t, c) =>
      var named := if s.cells[c].Node? then p.named + {s.cells[c].n} else p.named;
      s.(pc := s.pc[t := Walking(named, p.todo - {c}, p.prior)])
    case WalkEnd(t) => s.(pc := s.pc[t := Culling(p.named, s.bag[t], p.prior)])
    case Cull(t, n) =>
      var s1 := s.(pc := s.pc[t := Culling(p.named, p.left - {n}, p.prior)]);
      if n in p.named then s1 else s1.(bag := s.bag[t := s.bag[t] - {n}], status := s.status[n := Freed])
    case CullEnd(t) => s.(pc := s.pc[t := OrphanGate(p.named, p.prior)])
    case PassGate(t) => s.(pc := s.pc[t := if s.orphanCount == 0 then Rest else SweepLock(p.named, p.prior)])
    case LockSweep(t) => s.(lock := {t}, pc := s.pc[t := Sweeping(p.named, s.orphans, p.prior)])
    case Sweep(t, n) =>
      var s1 := s.(pc := s.pc[t := Sweeping(p.named, p.left - {n}, p.prior)]);
      if n in p.named then s1 else s1.(orphans := s.orphans - {n}, status := s.status[n := Freed])
    case SweepEnd(t) => s.(orphanCount := |s.orphans|, lock := {}, pc := s.pc[t := Rest])
  }

  function Apply(s: State, st: Step): (s': State)
    requires Enabled(s, st)
  {
    if ReaderEnabled(s, st) then ReaderApply(s, st)
    else if RetireEnabled(s, st) then RetireApply(s, st)
    else ScanApply(s, st)
  }
}
