/**
 Epoch-based reclamation: guards that announce the global epoch in their thread's slot, retire bags
 private to a thread, a store for the entries of exited threads, and reclaimers whose scan over the
 participants is not atomic.

 One step is one access to shared memory, or one iteration of a compaction loop.  Nodes are named by
 allocation, so a name is never reused.  The history is `unlinkedAt` (the global epoch when a node
 was unlinked), `place`, the sets `gone` and `refs` of a guard, the sets `added` and `subtracted`,
 and the identity of the nodes a reclaimer has freed so far: the program keeps only their number.
 */
module EpochReclaim {

  datatype Entry = Entry(ptr: nat, epoch: nat)

  // A guard on a thread's slot.  `gone` are the nodes unlinked before it announced, `refs` those it
  // has read since.  Out and Entering leave the slot at SIZE_MAX.
  datatype Guard = Out | Entering(e: nat) | In(announced: nat, gone: set<nat>, refs: set<nat>)

  datatype Pc =
    | Idle
    | Detached(n: nat) | Stamped(n: nat, e: nat)             // unlinked it; read the epoch for it
    | Spilling(entry: Entry) | Leaving                       // OrphanEpochEntries, before and
    | Storing(n: nat) | StoringLast                          // after it moves them in
    | Counting(n: nat)                                       // RetirePtr's fetch_add still to come
    | Advancing(e: nat)                                      // AdvanceEpoch between load and CAS
    | Gate                                                   // TryReclaim
    | ScanLoad
    | Scanning(m: nat, todo: set<nat>)                       // MinActiveEpoch
    | Draining(m: nat, i: nat, freed: set<nat>)              // the bag; bag[..i] are kept
    | OrphanGate(m: nat, freed: set<nat>)
    | SweepLock(m: nat, freed: set<nat>)
    | Sweeping(m: nat, i: nat, freed: set<nat>)              // the orphans, under the lock
    | Subtracting(freed: set<nat>)

  datatype Place = Live | Loose(t: nat) | Bagged(t: nat) | Orphaned | Deleted

  datatype State = State(
    g: nat,
    unlinkedAt: map<nat, nat>,
    place: map<nat, Place>,
    guard: map<nat, Guard>,
    pc: map<nat, Pc>,
    bag: map<nat, seq<Entry>>,
    dead: set<nat>,                  // threads whose bag has been destroyed
    orphans: seq<Entry>,
    orphanCount: nat,
    lock: set<nat>,                  // the holder of the store's mutex, if any
    retiredCount: int,
    added: set<nat>,
    subtracted: set<nat>)

  datatype Step =
    | Alloc(n: nat)
    | EnterLoad(t: nat) | EnterStore(t: nat) | Acquire(t: nat, n: nat) | Leave(t: nat)
    | Unlink(t: nat, n: nat) | Stamp(t: nat) | Push(t: nat) | Spill(t: nat) | Store(t: nat) | Count(t: nat)
    | Exit(t: nat) | HandOver(t: nat)
    | TickStart(t: nat) | TickCas(t: nat) | ReclaimStart(t: nat) | PassGate(t: nat)
    | ScanStart(t: nat) | ScanSlot(t: nat, u: nat) | ScanEnd(t: nat)
    | Drain(t: nat) | PassOrphanGate(t: nat) | LockSweep(t: nat) | Sweep(t: nat) | Subtract(t: nat)

  predicate Known(s: State, t: nat) { t in s.guard && t in s.pc && t in s.bag }

  predicate GuardEnabled(s: State, st: Step)
  {
    match st
    case EnterLoad(t) => Known(s, t) && s.guard[t].Out?
    case EnterStore(t) => Known(s, t) && s.guard[t].Entering?
    case Acquire(t, n) => Known(s, t) && s.guard[t].In? && n in s.place && n !in s.guard[t].gone
    case Leave(t) => Known(s, t) && s.guard[t].In?
    case _ => false
  }

  predicate RetireEnabled(s: State, st: Step)
  {
    match st
    case Alloc(n) => n !in s.place
    case Unlink(t, n) => Known(s, t) && s.pc[t].Idle? && n in s.place && s.place[n].Live?
    case Stamp(t) => Known(s, t) && s.pc[t].Detached?
    case Push(t) => Known(s, t) && s.pc[t].Stamped?
    case Spill(t) => Known(s, t) && s.pc[t].Spilling? && s.lock == {}
    case Store(t) => Known(s, t) && (s.pc[t].Storing? || s.pc[t].StoringLast?)
    case Count(t) => Known(s, t) && s.pc[t].Counting?
    case Exit(t) => Known(s, t) && s.pc[t].Idle? && t !in s.dead
    case HandOver(t) => Known(s, t) && s.pc[t].Leaving? && s.lock == {}
    case _ => false
  }

  predicate ReclaimEnabled(s: State, st: Step)
  {
    match st
    case TickStart(t) => Known(s, t) && s.pc[t].Idle? && t !in s.dead
    case TickCas(t) => Known(s, t) && s.pc[t].Advancing?
    case ReclaimStart(t) => Known(s, t) && s.pc[t].Idle? && t !in s.dead
    case PassGate(t) => Known(s, t) && s.pc[t].Gate?
    case ScanStart(t) => Known(s, t) && s.pc[t].ScanLoad?
    case ScanSlot(t, u) => Known(s, t) && s.pc[t].Scanning? && u in s.pc[t].todo && u in s.guard
    case ScanEnd(t) => Known(s, t) && s.pc[t].Scanning? && s.pc[t].todo == {}
    case Drain(t) => Known(s, t) && s.pc[t].Draining?
    case PassOrphanGate(t) => Known(s, t) && s.pc[t].OrphanGate?
    case LockSweep(t) => Known(s, t) && s.pc[t].SweepLock? && s.lock == {}
    case Sweep(t) => Known(s, t) && s.pc[t].Sweeping?
    case Subtract(t) => Known(s, t) && s.pc[t].Subtracting?
    case _ => false
  }

  predicate Enabled(s: State, st: Step) { GuardEnabled(s, st) || RetireEnabled(s, st) || ReclaimEnabled(s, st) }

  function GuardApply(s: State, st: Step): (s': State)
    requires GuardEnabled(s, st)
  {
    match st
    case EnterLoad(t) => s.(guard := s.guard[t := Entering(s.g)])
    case EnterStore(t) => s.(guard := s.guard[t := In(s.guard[t].e, s.unlinkedAt.Keys, {})])
    case Acquire(t, n) => s.(guard := s.guard[t := s.guard[t].(refs := s.guard[t].refs + {n})])
    case Leave(t) => s.(guard := s.guard[t := Out])
  }

  function Places(place: map<nat, Place>, v: seq<Entry>, p: Place): (r: map<nat, Place>)
    ensures forall n :: n in place <==> n in r
    ensures forall n :: n in place ==> r[n] == if exists i :: 0 <= i < |v| && v[i].ptr == n then p else place[n]
  {
    map n | n in place :: if exists i :: 0 <= i < |v| && v[i].ptr == n then p else place[n]
  }

  function RetireApply(s: State, st: Step): (s': State)
    requires RetireEnabled(s, st)
  {
    match st
    case Alloc(n) => s.(place := s.place[n := Live])
    case Unlink(t, n) =>
      s.(unlinkedAt := s.unlinkedAt[n := s.g], place := s.place[n := Loose(t)], pc := s.pc[t := Detached(n)])
    case Stamp(t) => s.(pc := s.pc[t := Stamped(s.pc[t].n, s.g)])
    case Push(t) =>
      var e := Entry(s.pc[t].n, s.pc[t].e);
      if t in s.dead then s.(pc := s.pc[t := Spilling(e)])
      else s.(bag := s.bag[t := s.bag[t] + [e]], place := s.place[e.ptr := Bagged(t)], pc := s.pc[t := Counting(e.ptr)])
    case Spill(t) =>
      var e := s.pc[t].entry;
      s.(orphans := s.orphans + [e], place := s.place[e.ptr := Orphaned], lock := {t}, pc := s.pc[t := Storing(e.ptr)])
    case Store(t) => s.(orphanCount := |s.orphans|, lock := {}, pc := s.pc[t := if s.pc[t].Storing? then Counting(s.pc[t].n) else Idle])
    case Count(t) =>
      s.(retiredCount := s.retiredCount + 1, added := s.added + {s.pc[t].n}, pc := s.pc[t := Idle])
    case Exit(t) => s.(dead := s.dead + {t}, pc := s.pc[t := if s.bag[t] == [] then Idle else Leaving])
    case HandOver(t) =>
      s.(orphans := s.orphans + s.bag[t], place := Places(s.place, s.bag[t], Orphaned), bag := s.bag[t := []],
         lock := {t}, pc := s.pc[t := StoringLast])
  }

  function Without(v: seq<Entry>, i: nat): (r: seq<Entry>)
    requires i < |v|
  {
    v[..i] + v[i + 1..]
  }

  function ReclaimApply(s: State, st: Step): (s': State)
    requires ReclaimEnabled(s, st)
  {
    match st
    case TickStart(t) => s.(pc := s.pc[t := Advancing(s.g)])
    case TickCas(t) => s.(g := if s.g == s.pc[t].e then s.g + 1 else s.g, pc := s.pc[t := Gate])
    case ReclaimStart(t) => s.(pc := s.pc[t := Gate])
    case PassGate(t) => s.(pc := s.pc[t := if s.bag[t] == [] && s.orphanCount == 0 then Idle else ScanLoad])
    case ScanStart(t) => s.(pc := s.pc[t := Scanning(s.g, s.guard.Keys)])
    case ScanSlot(t, u) =>
      var m := s.pc[t].m;
      var low := if s.guard[u].In? && s.guard[u].announced < m then s.guard[u].announced else m;
      s.(pc := s.pc[t := Scanning(low, s.pc[t].todo - {u})])
    case ScanEnd(t) => s.(pc := s.pc[t := Draining(s.pc[t].m, 0, {})])
    case Drain(t) =>
      var (m, i, freed) := (s.pc[t].m, s.pc[t].i, s.pc[t].freed);
      if i >= |s.bag[t]| then s.(pc := s.pc[t := OrphanGate(m, freed)])
      else if s.bag[t][i].epoch < m then
        var n := s.bag[t][i].ptr;
        s.(bag := s.bag[t := Without(s.bag[t], i)], place := s.place[n := Deleted], pc := s.pc[t := Draining(m, i, freed + {n})])
      else s.(pc := s.pc[t := Draining(m, i + 1, freed)])
    case PassOrphanGate(t) =>
      s.(pc := s.pc[t := if s.orphanCount == 0 then Subtracting(s.pc[t].freed) else SweepLock(s.pc[t].m, s.pc[t].freed)])
    case LockSweep(t) => s.(lock := {t}, pc := s.pc[t := Sweeping(s.pc[t].m, 0, s.pc[t].freed)])
    case Sweep(t) =>
      var (m, i, freed) := (s.pc[t].m, s.pc[t].i, s.pc[t].freed);
      if i >= |s.orphans| then s.(orphanCount := |s.orphans|, lock := {}, pc := s.pc[t := Subtracting(freed)])
      else if s.orphans[i].epoch < m then
        var n := s.orphans[i].ptr;
        s.(orphans := Without(s.orphans, i), place := s.place[n := Deleted], pc := s.pc[t := Sweeping(m, i, freed + {n})])
      else s.(pc := s.pc[t := Sweeping(m, i + 1, freed)])
    case Subtract(t) =>
      s.(retiredCount := s.retiredCount - |s.pc[t].freed|, subtracted := s.subtracted + s.pc[t].freed, pc := s.pc[t := Idle])
  }

  function Apply(s: State, st: Step): (s': State)
    requires Enabled(s, st)
  {
    if GuardEnabled(s, st) then GuardApply(s, st)
    else if RetireEnabled(s, st) then RetireApply(s, st)
    else ReclaimApply(s, st)
  }
}
