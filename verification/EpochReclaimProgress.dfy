/**
 What a Tick is bound to reclaim: every entry that was in the caller's bag or counted in the orphan
 store when it began, if no guard of that epoch or an earlier one is open meanwhile, whatever other threads
 retire, reclaim and hand over, and whoever wins the race to advance the epoch.
 */
module EpochReclaimProgress {
  import opened EpochReclaim
  import EpochBag
  import opened EpochReclaimSafety
  import opened EpochReclaimTheorems

  // Open guards announced an epoch after e0.
  predicate NoneOld(s: State, e0: nat) { forall u :: u in s.guard && s.guard[u].In? ==> e0 < s.guard[u].announced }

  // Thread t goes on with its Tick and stops when that is done; other threads do anything.
  predicate Beside(st: Step, t: nat) { (st.Unlink? || st.Exit? || st.TickStart? || st.ReclaimStart?) ==> st.t != t }

  ghost predicate QuietRun(s: State, steps: seq<Step>, t: nat, e0: nat, s': State)
    decreases |steps|
  {
    && NoneOld(s, e0)
    && if steps == [] then s' == s
       else Beside(steps[0], t) && Enabled(s, steps[0]) && QuietRun(Apply(s, steps[0]), steps[1..], t, e0, s')
  }

  // ---- the entries the Tick has to delete ------------------------------------------------------------

  ghost predicate NoneOf(v: seq<Entry>, d: set<nat>) { forall i :: 0 <= i < |v| ==> v[i].ptr !in d }

  // Entries for nodes of d are of epoch e0 or earlier.
  ghost predicate OldIn(v: seq<Entry>, d: set<nat>, e0: nat) { forall i :: 0 <= i < |v| && v[i].ptr in d ==> v[i].epoch <= e0 }

  // While one of them is in the store, the gate is open.
  ghost predicate Counted(v: seq<Entry>, count: nat, d: set<nat>) { count == 0 ==> NoneOf(v, d) }

  ghost predicate Bound(place: map<nat, Place>, t: nat, d: set<nat>) {
    forall n :: n in d ==> n in place && (place[n] == Bagged(t) || place[n].Orphaned? || place[n].Deleted?)
  }

  ghost predicate Duty(s: State, t: nat, e0: nat, d: set<nat>) {
    && Known(s, t) && AllUpTo(s.bag[t], e0) && Bound(s.place, t, d)
    && OldIn(s.orphans, d, e0) && Counted(s.orphans, s.orphanCount, d)
  }

  // How far the Tick of t has come, e0 being the epoch when it began.
  ghost predicate Reached(s: State, t: nat, e0: nat, d: set<nat>)
    requires Known(s, t)
  {
    match s.pc[t]
    case Advancing(e) => e0 <= e <= s.g
    case Gate => e0 < s.g
    case ScanLoad => e0 < s.g
    case Scanning(m, _) => e0 < m
    case Draining(m, i, _) => e0 < m && i == 0
    case OrphanGate(m, _) => e0 < m && s.bag[t] == []
    case SweepLock(m, _) => e0 < m && s.bag[t] == []
    case Sweeping(m, i, _) => e0 < m && s.bag[t] == [] && NoneOf(s.orphans[..Most(i, |s.orphans|)], d)
    case Subtracting(_) => s.bag[t] == [] && NoneOf(s.orphans, d)
    case Idle => s.bag[t] == [] && NoneOf(s.orphans, d)
    case _ => false
  }

  function Most(i: nat, n: nat): (k: nat) { if i <= n then i else n }

  ghost predicate Phase(s: State, t: nat, e0: nat, d: set<nat>) { Duty(s, t, e0, d) && Reached(s, t, e0, d) }

  // ---- the store ---------------------------------------------------------------------------------------

  // Entries for other nodes join.
  lemma StoreGrows(v: seq<Entry>, w: seq<Entry>, count: nat, d: set<nat>, e0: nat)
    requires OldIn(v, d, e0) && Counted(v, count, d) && NoneOf(w, d)
    ensures OldIn(v + w, d, e0) && Counted(v + w, count, d) && (NoneOf(v, d) ==> NoneOf(v + w, d))
  {
  }

  lemma StoreShrinks(v: seq<Entry>, i: nat, count: nat, d: set<nat>, e0: nat)
    requires OldIn(v, d, e0) && Counted(v, count, d) && i < |v|
    ensures OldIn(Without(v, i), d, e0) && Counted(Without(v, i), count, d) && (NoneOf(v, d) ==> NoneOf(Without(v, i), d))
    ensures NoneOf(v[..i], d) ==> NoneOf(Without(v, i)[..i], d)
  {
    var w := Without(v, i);
    forall j | 0 <= j < |w|
      ensures w[j] == v[if j < i then j else j + 1]
    {
    }
  }

  lemma CountStored(v: seq<Entry>, d: set<nat>)
    ensures Counted(v, |v|, d)
  {
  }

  // ---- other threads --------------------------------------------------------------------------------------

  // A step of another thread that keeps the duty leaves the Tick where it is, unless t is sweeping.
  lemma Undisturbed(s: State, s': State, t: nat, e0: nat, d: set<nat>)
    requires Phase(s, t, e0, d) && Duty(s', t, e0, d) && s'.pc[t] == s.pc[t] && s'.bag[t] == s.bag[t] && s.g <= s'.g
    requires s.pc[t].Sweeping? ==> s'.orphans == s.orphans
    requires NoneOf(s.orphans, d) ==> NoneOf(s'.orphans, d)
    ensures Phase(s', t, e0, d)
  {
    hide NoneOf, Duty;
    assert Known(s, t) && Known(s', t) by { DutyKnown(s, t, e0, d); DutyKnown(s', t, e0, d); }
  }

  lemma DutyKnown(s: State, t: nat, e0: nat, d: set<nat>)
    requires Duty(s, t, e0, d)
    ensures Known(s, t)
  {
  }

  lemma SweeperLocks(s: State, t: nat)
    requires Locked(s.pc, s.lock, s.orphans, s.orphanCount) && t in s.pc && s.pc[t].Sweeping?
    ensures s.lock == {t} && forall u :: u in s.pc && InStore(s.pc[u]) ==> u == t
  {
    assert InStore(s.pc[t]);
  }

  // A node that is nowhere in the duty changes place.
  lemma BoundElsewhere(place: map<nat, Place>, n: nat, p: Place, t: nat, d: set<nat>)
    requires Bound(place, t, d) && n !in d
    ensures Bound(place[n := p], t, d)
  {
  }

  lemma LooseOutside(s: State, u: nat, t: nat, d: set<nat>)
    requires Core(s) && u in s.pc && (s.pc[u].Stamped? || s.pc[u].Spilling?) && Bound(s.place, t, d)
    ensures (if s.pc[u].Stamped? then s.pc[u].n else s.pc[u].entry.ptr) !in d
  {
    hide Core;
    HeldOf(s, u);
  }

  lemma BagOutside(s: State, u: nat, t: nat, d: set<nat>)
    requires Core(s) && u in s.bag && u != t && Bound(s.place, t, d)
    ensures NoneOf(s.bag[u], d)
  {
    hide Core;
    BagOf(s, u);
  }

  lemma PushDuty(s: State, u: nat, t: nat, e0: nat, d: set<nat>)
    requires Phase(s, t, e0, d) && Core(s) && RetireEnabled(s, Push(u)) && u != t
    ensures Phase(RetireApply(s, Push(u)), t, e0, d)
  {
    hide Core, Places, Reached, OldIn, Counted, AllUpTo, Bound, NoneOf;
    var s' := RetireApply(s, Push(u));
    LooseOutside(s, u, t, d);
    BoundElsewhere(s.place, s.pc[u].n, Bagged(u), t, d);
    Undisturbed(s, s', t, e0, d);
  }

  lemma SpillDuty(s: State, u: nat, t: nat, e0: nat, d: set<nat>)
    requires Phase(s, t, e0, d) && Core(s) && Locked(s.pc, s.lock, s.orphans, s.orphanCount) && RetireEnabled(s, Spill(u)) && u != t
    ensures Phase(RetireApply(s, Spill(u)), t, e0, d)
  {
    if s.pc[t].Sweeping? { SweeperLocks(s, t); }
    hide Core, Places, Reached, OldIn, Counted, AllUpTo, Bound, Locked;
    var s', e := RetireApply(s, Spill(u)), s.pc[u].entry;
    LooseOutside(s, u, t, d);
    BoundElsewhere(s.place, e.ptr, Orphaned, t, d);
    StoreGrows(s.orphans, [e], s.orphanCount, d, e0);
    Undisturbed(s, s', t, e0, d);
  }

  lemma HandOverDuty(s: State, u: nat, t: nat, e0: nat, d: set<nat>)
    requires Phase(s, t, e0, d) && Core(s) && Locked(s.pc, s.lock, s.orphans, s.orphanCount) && RetireEnabled(s, HandOver(u)) && u != t
    ensures Phase(RetireApply(s, HandOver(u)), t, e0, d)
  {
    if s.pc[t].Sweeping? { SweeperLocks(s, t); }
    hide Core, Reached, OldIn, Counted, AllUpTo, Locked;
    var s' := RetireApply(s, HandOver(u));
    BagOutside(s, u, t, d);
    assert Bound(s'.place, t, d);
    hide Bound, Places;
    StoreGrows(s.orphans, s.bag[u], s.orphanCount, d, e0);
    Undisturbed(s, s', t, e0, d);
  }

  lemma RestDuty(s: State, st: Step, t: nat, e0: nat, d: set<nat>)
    requires Phase(s, t, e0, d) && Locked(s.pc, s.lock, s.orphans, s.orphanCount) && RetireEnabled(s, st)
    requires st.Unlink? || st.Stamp? || st.Store? || st.Count? || st.Exit?
    requires st.t != t
    ensures Phase(RetireApply(s, st), t, e0, d)
  {
    hide Places, Reached, OldIn, AllUpTo;
    var s' := RetireApply(s, st);
    CountStored(s.orphans, d);
    hide Counted, NoneOf;
    assert Bound(s'.place, t, d);
    Undisturbed(s, s', t, e0, d);
  }

  lemma AllocDuty(s: State, n: nat, t: nat, e0: nat, d: set<nat>)
    requires Phase(s, t, e0, d) && n !in s.place
    ensures Phase(s.(place := s.place[n := Live]), t, e0, d)
  {
    hide OldIn, Counted, AllUpTo, NoneOf;
  }

  lemma PhaseRetire(s: State, st: Step, t: nat, e0: nat, d: set<nat>)
    requires Phase(s, t, e0, d) && Core(s) && Locked(s.pc, s.lock, s.orphans, s.orphanCount) && RetireEnabled(s, st) && Beside(st, t)
    ensures Phase(RetireApply(s, st), t, e0, d)
  {
    hide Phase, Core, Locked, RetireApply;
    if !st.Alloc? { NotRetiring(s, st, t, e0, d); }
    if st.Alloc? {
      AllocDuty(s, st.n, t, e0, d);
      AllocApply(s, st.n);
    } else if st.Push? {
      PushDuty(s, st.t, t, e0, d);
    } else if st.Spill? {
      SpillDuty(s, st.t, t, e0, d);
    } else if st.HandOver? {
      HandOverDuty(s, st.t, t, e0, d);
    } else {
      RestDuty(s, st, t, e0, d);
    }
  }

  lemma AllocApply(s: State, n: nat)
    requires RetireEnabled(s, Alloc(n))
    ensures RetireApply(s, Alloc(n)) == s.(place := s.place[n := Live])
  {
  }

  // A thread in its Tick is in no retire.
  lemma NotRetiring(s: State, st: Step, t: nat, e0: nat, d: set<nat>)
    requires Phase(s, t, e0, d) && RetireEnabled(s, st) && !st.Alloc? && Beside(st, t)
    ensures st.t != t
  {
  }

  lemma OtherSweep(s: State, u: nat, t: nat, e0: nat, d: set<nat>)
    requires Phase(s, t, e0, d) && Locked(s.pc, s.lock, s.orphans, s.orphanCount) && ReclaimEnabled(s, Sweep(u)) && u != t
    ensures Phase(ReclaimApply(s, Sweep(u)), t, e0, d)
  {
    if s.pc[t].Sweeping? { SweeperLocks(s, t); }
    hide Reached, OldIn, Counted, AllUpTo, NoneOf, Locked, Without;
    var s' := ReclaimApply(s, Sweep(u));
    if Deletes(s, Sweep(u)) {
      StoreShrinks(s.orphans, s.pc[u].i, s.orphanCount, d, e0);
    }
    CountStored(s.orphans, d);
    assert Bound(s'.place, t, d);
    hide Bound;
    Undisturbed(s, s', t, e0, d);
  }

  lemma OtherDrain(s: State, u: nat, t: nat, e0: nat, d: set<nat>)
    requires Phase(s, t, e0, d) && ReclaimEnabled(s, Drain(u)) && u != t
    ensures Phase(ReclaimApply(s, Drain(u)), t, e0, d)
  {
    hide Reached, OldIn, Counted, AllUpTo, NoneOf, Without;
    var s' := ReclaimApply(s, Drain(u));
    assert Bound(s'.place, t, d);
    hide Bound;
    Undisturbed(s, s', t, e0, d);
  }

  lemma PhaseOther(s: State, st: Step, t: nat, e0: nat, d: set<nat>)
    requires Phase(s, t, e0, d) && Locked(s.pc, s.lock, s.orphans, s.orphanCount) && ReclaimEnabled(s, st) && st.t != t
    ensures Phase(ReclaimApply(s, st), t, e0, d)
  {
    hide Reached, OldIn, Counted, AllUpTo, NoneOf, Locked, Without, Bound;
    if st.Sweep? {
      OtherSweep(s, st.t, t, e0, d);
    } else if st.Drain? {
      OtherDrain(s, st.t, t, e0, d);
    } else {
      Undisturbed(s, ReclaimApply(s, st), t, e0, d);
    }
  }

  // ---- the Tick itself --------------------------------------------------------------------------------------

  lemma OwnDrain(s: State, t: nat, e0: nat, d: set<nat>)
    requires Phase(s, t, e0, d) && ReclaimEnabled(s, Drain(t))
    ensures Phase(ReclaimApply(s, Drain(t)), t, e0, d)
  {
    hide OldIn, Counted, NoneOf;
    if s.bag[t] != [] {
      WithoutUpTo(s.bag[t], 0, e0);
    }
  }

  lemma OwnSweep(s: State, t: nat, e0: nat, d: set<nat>)
    requires Phase(s, t, e0, d) && ReclaimEnabled(s, Sweep(t))
    ensures Phase(ReclaimApply(s, Sweep(t)), t, e0, d)
  {
    var i, v := s.pc[t].i, s.orphans;
    CountStored(v, d);
    if i >= |v| {
      assert v[..|v|] == v;
      hide OldIn, Counted, AllUpTo, NoneOf;
    } else if v[i].epoch < s.pc[t].m {
      StoreShrinks(v, i, s.orphanCount, d, e0);
      assert |Without(v, i)| == |v| - 1;
      hide OldIn, Counted, AllUpTo, NoneOf;
    } else {
      KeptIsOther(v, i, s.pc[t].m, d, e0);
      hide OldIn, Counted, AllUpTo, NoneOf;
    }
  }

  // An entry the sweep keeps is of a later epoch, so it is none of those.
  lemma KeptIsOther(v: seq<Entry>, i: nat, m: nat, d: set<nat>, e0: nat)
    requires i < |v| && NoneOf(v[..i], d) && OldIn(v, d, e0) && e0 < m <= v[i].epoch
    ensures NoneOf(v[..i + 1], d)
  {
    assert v[..i + 1] == v[..i] + [v[i]];
  }

  lemma OwnOther(s: State, st: Step, t: nat, e0: nat, d: set<nat>)
    requires Phase(s, t, e0, d) && ReclaimEnabled(s, st) && Beside(st, t) && st.t == t && NoneOld(s, e0) && !st.Drain? && !st.Sweep?
    ensures Phase(ReclaimApply(s, st), t, e0, d)
  {
    hide OldIn, AllUpTo, Bound;
    if st.LockSweep? {
      assert s.orphans[..0] == [];
    } else {
      hide NoneOf;
    }
  }

  lemma PhaseStep(s: State, st: Step, t: nat, e0: nat, d: set<nat>)
    requires Phase(s, t, e0, d) && Inv(s) && NoneOld(s, e0) && Beside(st, t) && Enabled(s, st)
    ensures Phase(Apply(s, st), t, e0, d)
  {
    hide Phase, Core, Tally, Recent, Locked, RetireApply, ReclaimApply, GuardApply, GuardEnabled, RetireEnabled;
    if GuardEnabled(s, st) {
      PhaseGuard(s, st, t, e0, d);
    } else if RetireEnabled(s, st) {
      PhaseRetire(s, st, t, e0, d);
    } else if st.t != t {
      PhaseOther(s, st, t, e0, d);
    } else if st.Drain? {
      OwnDrain(s, t, e0, d);
    } else if st.Sweep? {
      OwnSweep(s, t, e0, d);
    } else {
      OwnOther(s, st, t, e0, d);
    }
  }

  lemma PhaseGuard(s: State, st: Step, t: nat, e0: nat, d: set<nat>)
    requires Phase(s, t, e0, d) && GuardEnabled(s, st)
    ensures Phase(GuardApply(s, st), t, e0, d)
  {
    hide OldIn, Counted, AllUpTo, NoneOf, Bound;
  }

  lemma {:induction false} PhaseRun(s: State, steps: seq<Step>, t: nat, s': State, e0: nat, d: set<nat>)
    requires Phase(s, t, e0, d) && Inv(s) && QuietRun(s, steps, t, e0, s')
    ensures Phase(s', t, e0, d) && Inv(s')
    decreases |steps|
  {
    hide Inv, Apply, Enabled, Phase, NoneOld, Beside;
    if steps != [] {
      PhaseStep(s, steps[0], t, e0, d);
      InvStep(s, steps[0]);
      PhaseRun(Apply(s, steps[0]), steps[1..], t, s', e0, d);
    }
  }

  // What the Tick of t finds: its bag, and the store unless its count says it is empty.
  function Found(s: State, t: nat): (r: set<nat>)
    requires t in s.bag
  {
    EpochBag.Ptrs(s.bag[t]) + if s.orphanCount == 0 then {} else EpochBag.Ptrs(s.orphans)
  }

  lemma TickBegins(s: State, t: nat)
    requires Inv(s) && ReclaimEnabled(s, TickStart(t))
    ensures Phase(ReclaimApply(s, TickStart(t)), t, s.g, Found(s, t))
  {
    hide Tally, Core, Found;
    FoundPlaces(s, t);
  }

  lemma FoundPlaces(s: State, t: nat)
    requires Core(s) && t in s.bag
    ensures Bound(s.place, t, Found(s, t)) && Counted(s.orphans, s.orphanCount, Found(s, t))
  {
    hide Epochs, Guards, Scans, Fenced, Placed, Held;
    BagOf(s, t);
  }

  /** A Tick during which no guard of its first epoch or an earlier one is open deletes every node whose
      entry was in the caller's bag when it began, or in a store whose count was not zero, and leaves
      the bag empty. */
  lemma TickDeletesWhatItFound(s0: State, before: seq<Step>, s: State, t: nat, during: seq<Step>, s': State)
    requires Init(s0) && Run(s0, before, s)
    requires ReclaimEnabled(s, TickStart(t)) && QuietRun(ReclaimApply(s, TickStart(t)), during, t, s.g, s')
    requires t in s'.pc && s'.pc[t].Idle?
    ensures t in s'.bag && s'.bag[t] == []
    ensures forall n :: n in Found(s, t) ==> n in s'.place && s'.place[n].Deleted?
  {
    hide Core, Tally, Locked, Recent, EpochReclaimTheorems.Init, Run, QuietRun, Found, NoneOf, OldIn, Counted, AllUpTo;
    Reachable(s0, before, s);
    TickBegins(s, t);
    InvStep(s, TickStart(t));
    var s1, d := ReclaimApply(s, TickStart(t)), Found(s, t);
    assert Apply(s, TickStart(t)) == s1;
    PhaseRun(s1, during, t, s', s.g, d);
    forall n | n in d
      ensures n in s'.place && s'.place[n].Deleted?
    {
      NowhereElse(s', t, n, d);
    }
  }

  lemma NowhereElse(s: State, t: nat, n: nat, d: set<nat>)
    requires Core(s) && t in s.bag && s.bag[t] == [] && NoneOf(s.orphans, d) && n in d && Bound(s.place, t, d)
    ensures n in s.place && s.place[n].Deleted?
  {
    BagOf(s, t);
    hide Epochs, Guards, Scans, Fenced, Placed, Held, Bags;
    assert Listed([], n) ==> false;
  }

  // ---- with nothing handed over -------------------------------------------------------------------------------

  // No thread has moved entries into the store and not yet stored the count.
  predicate NoneStoring(pc: map<nat, Pc>) { forall u :: u in pc ==> !pc[u].Storing? && !pc[u].StoringLast? }

  ghost predicate NoneHanded(steps: seq<Step>) { forall i :: 0 <= i < |steps| ==> !steps[i].Spill? && !steps[i].HandOver? }

  lemma {:induction false} StoreOnlyShrinks(s: State, steps: seq<Step>, t: nat, e0: nat, s': State, n: nat)
    requires QuietRun(s, steps, t, e0, s') && NoneHanded(steps) && Listed(s'.orphans, n)
    ensures Listed(s.orphans, n)
    decreases |steps|
  {
    hide Enabled, Apply, Listed;
    if steps != [] {
      StoreOnlyShrinks(Apply(s, steps[0]), steps[1..], t, e0, s', n);
      StepShrinks(s, steps[0], n);
    }
  }

  lemma StepShrinks(s: State, st: Step, n: nat)
    requires Enabled(s, st) && !st.Spill? && !st.HandOver? && Listed(Apply(s, st).orphans, n)
    ensures Listed(s.orphans, n)
  {
    hide Listed, GuardApply, RetireApply, ReclaimApply;
    if GuardEnabled(s, st) {
      GuardKeeps(s, st);
    } else if RetireEnabled(s, st) {
      RetireKeeps(s, st);
    } else {
      ReclaimShrinks(s, st, n);
    }
  }

  lemma GuardKeeps(s: State, st: Step)
    requires GuardEnabled(s, st)
    ensures GuardApply(s, st).orphans == s.orphans
  {
  }

  lemma RetireKeeps(s: State, st: Step)
    requires RetireEnabled(s, st) && !st.Spill? && !st.HandOver?
    ensures RetireApply(s, st).orphans == s.orphans
  {
    hide Places;
  }

  lemma ReclaimShrinks(s: State, st: Step, n: nat)
    requires ReclaimEnabled(s, st) && Listed(ReclaimApply(s, st).orphans, n)
    ensures Listed(s.orphans, n)
  {
    hide Without, Listed;
    if st.Sweep? && Deletes(s, st) { ListedWithout(s.orphans, s.pc[st.t].i, n); }
  }

  lemma ListedWithout(v: seq<Entry>, i: nat, n: nat)
    requires i < |v|
    ensures Listed(Without(v, i), n) ==> Listed(v, n)
  {
    var w := Without(v, i);
    if Listed(w, n) {
      var j :| 0 <= j < |w| && w[j].ptr == n;
      assert v[if j < i then j else j + 1].ptr == n;
    }
  }

  // Then, if no hand-over was half done when it began, the store is empty too.
  lemma QuietTickReclaims(s0: State, before: seq<Step>, s: State, t: nat, during: seq<Step>, s': State)
    requires Init(s0) && Run(s0, before, s) && NoneStoring(s.pc) && NoneHanded(during)
    requires ReclaimEnabled(s, TickStart(t)) && QuietRun(ReclaimApply(s, TickStart(t)), during, t, s.g, s')
    requires t in s'.pc && s'.pc[t].Idle?
    ensures t in s'.bag && s'.bag[t] == [] && s'.orphans == []
  {
    hide Core, Tally, Locked, Recent, EpochReclaimTheorems.Init, Run, QuietRun;
    TickDeletesWhatItFound(s0, before, s, t, during, s');
    CountTrusted(s0, before, s);
    if s'.orphans != [] {
      var n := s'.orphans[0].ptr;
      assert Listed(s'.orphans, n);
      StoreOnlyShrinks(ReclaimApply(s, TickStart(t)), during, t, s.g, s', n);
      assert n in Found(s, t);
      QuietInv(s0, before, s, t, during, s');
      OrphanAt(s', 0);
    }
  }

  // With the store settled, a count of zero means an empty store.
  lemma ZeroMeansEmpty(s: State)
    requires Locked(s.pc, s.lock, s.orphans, s.orphanCount) && NoneStoring(s.pc)
    ensures s.orphanCount == 0 ==> s.orphans == []
  {
    if s.lock != {} {
      var t :| t in s.lock;
      assert s.pc[t].Sweeping?;
    }
  }

  lemma CountTrusted(s0: State, before: seq<Step>, s: State)
    requires Init(s0) && Run(s0, before, s) && NoneStoring(s.pc)
    ensures s.orphanCount == 0 ==> s.orphans == []
  {
    hide Core, Tally, Recent, EpochReclaimTheorems.Init, Run;
    Reachable(s0, before, s);
    ZeroMeansEmpty(s);
  }

  lemma QuietInv(s0: State, before: seq<Step>, s: State, t: nat, during: seq<Step>, s': State)
    requires Init(s0) && Run(s0, before, s)
    requires ReclaimEnabled(s, TickStart(t)) && QuietRun(ReclaimApply(s, TickStart(t)), during, t, s.g, s')
    ensures Inv(s')
  {
    hide Inv, EpochReclaimTheorems.Init, Run, QuietRun, Phase;
    Reachable(s0, before, s);
    TickBegins(s, t);
    InvStep(s, TickStart(t));
    assert Apply(s, TickStart(t)) == ReclaimApply(s, TickStart(t));
    PhaseRun(ReclaimApply(s, TickStart(t)), during, t, s', s.g, Found(s, t));
  }
}
