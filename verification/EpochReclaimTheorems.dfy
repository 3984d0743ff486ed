/**
 Epoch reclamation over whole runs: no node is deleted while a guard could read it, every retired
 node is in exactly one place and the counters count them, and a quiet Tick reclaims everything.
 */
module EpochReclaimTheorems {
  import opened EpochReclaim
  import opened EpochReclaimSafety

  ghost predicate Init(s: State)
  {
    && s.unlinkedAt == map[] && s.guard.Keys == s.pc.Keys == s.bag.Keys && s.dead == {} && s.lock == {}
    && s.orphans == [] && s.orphanCount == 0 && s.retiredCount == 0 && s.added == {} && s.subtracted == {}
    && (forall t :: t in s.guard ==> s.guard[t].Out? && s.pc[t].Idle? && s.bag[t] == [])
    && (forall n :: n in s.place ==> s.place[n].Live?)
  }

  ghost predicate Run(s: State, steps: seq<Step>, s': State)
    decreases |steps|
  {
    if steps == [] then s' == s
    else Enabled(s, steps[0]) && Run(Apply(s, steps[0]), steps[1..], s')
  }

  // ---- counters: what is done, what a thread still has to do, and what there is ------------------------

  ghost predicate Split(done: set<nat>, due: map<nat, set<nat>>, all: set<nat>) {
    && done <= all
    && (forall t :: t in due ==> due[t] <= all && due[t] !! done)
    && (forall t, u :: t in due && u in due && t != u ==> due[t] !! due[u])
    && (forall n :: n in all && n !in done ==> exists t :: t in due && n in due[t])
  }

  lemma SplitGrow(done: set<nat>, due: map<nat, set<nat>>, all: set<nat>, t: nat, n: nat)
    requires Split(done, due, all) && t in due && n !in all
    ensures Split(done, due[t := due[t] + {n}], all + {n})
  {
    var due' := due[t := due[t] + {n}];
    forall k | k in all + {n} && k !in done
      ensures exists u :: u in due' && k in due'[u]
    {
      if k == n {
        assert n in due'[t];
      } else {
        var u :| u in due && k in due[u];
        assert k in due'[u];
      }
    }
  }

  lemma SplitSettle(done: set<nat>, due: map<nat, set<nat>>, all: set<nat>, t: nat)
    requires Split(done, due, all) && t in due
    ensures Split(done + due[t], due[t := {}], all) && |done + due[t]| == |done| + |due[t]|
  {
    var due' := due[t := {}];
    forall k | k in all && k !in done + due[t]
      ensures exists u :: u in due' && k in due'[u]
    {
      var u :| u in due && k in due[u];
      assert k in due'[u];
    }
    Sum(done, due[t]);
  }

  lemma Sum(a: set<nat>, b: set<nat>)
    requires a !! b
    ensures |a + b| == |a| + |b|
  {
    assert a + b - b == a;
  }

  // The fetch_add and the fetch_sub a thread still owes.
  function Adds(p: Pc): (r: set<nat>) { if p.Counting? || p.Storing? then {p.n} else {} }

  function Subs(p: Pc): (r: set<nat>)
  {
    if p.Draining? || p.OrphanGate? || p.SweepLock? || p.Sweeping? || p.Subtracting? then p.freed else {}
  }

  function AddsOf(pc: map<nat, Pc>): (r: map<nat, set<nat>>) { map t | t in pc :: Adds(pc[t]) }
  function SubsOf(pc: map<nat, Pc>): (r: map<nat, set<nat>>) { map t | t in pc :: Subs(pc[t]) }

  function Retired(place: map<nat, Place>): (r: set<nat>) { set n | n in place && !place[n].Live? && !place[n].Loose? }
  function Freed(place: map<nat, Place>): (r: set<nat>) { set n | n in place && place[n].Deleted? }

  ghost predicate Tally(s: State)
  {
    && Split(s.added, AddsOf(s.pc), Retired(s.place))
    && Split(s.subtracted, SubsOf(s.pc), Freed(s.place))
    && s.retiredCount == |s.added| - |s.subtracted|
  }

  predicate InStore(p: Pc) { p.Storing? || p.StoringLast? || p.Sweeping? }

  // The mutex, and the count that is stored before it is released.
  ghost predicate Locked(pc: map<nat, Pc>, lock: set<nat>, orphans: seq<Entry>, orphanCount: nat)
  {
    && lock <= pc.Keys
    && (forall t :: t in pc ==> (InStore(pc[t]) <==> t in lock))
    && (forall t, u :: t in lock && u in lock ==> t == u)
    && (lock == {} ==> orphanCount == |orphans|)
    && (forall t :: t in pc && pc[t].Sweeping? ==> |orphans| <= orphanCount)
  }

  ghost predicate AllUpTo(v: seq<Entry>, g: nat) { forall i :: 0 <= i < |v| ==> v[i].epoch <= g }

  // Recorded epochs are epochs the manager has reached.
  ghost predicate Recent(g: nat, pc: map<nat, Pc>, bag: map<nat, seq<Entry>>, orphans: seq<Entry>)
  {
    && AllUpTo(orphans, g)
    && (forall t :: t in bag ==> AllUpTo(bag[t], g))
    && (forall t :: t in pc ==> (pc[t].Stamped? ==> pc[t].e <= g) && (pc[t].Spilling? ==> pc[t].entry.epoch <= g))
  }

  ghost predicate Inv(s: State)
  {
    && Core(s) && Tally(s)
    && Locked(s.pc, s.lock, s.orphans, s.orphanCount)
    && Recent(s.g, s.pc, s.bag, s.orphans)
  }

  // ---- the tally is kept ---------------------------------------------------------------------------

  // A step that changes neither duty of its thread, nor who is retired or freed.
  lemma TallySame(s: State, t: nat, p: Pc, place: map<nat, Place>)
    requires Tally(s) && t in s.pc && Adds(p) == Adds(s.pc[t]) && Subs(p) == Subs(s.pc[t])
    requires Retired(place) == Retired(s.place) && Freed(place) == Freed(s.place)
    ensures AddsOf(s.pc[t := p]) == AddsOf(s.pc) && SubsOf(s.pc[t := p]) == SubsOf(s.pc)
    ensures Tally(s.(pc := s.pc[t := p], place := place))
  {
    hide Split, Adds, Subs, Retired, Freed;
    assert AddsOf(s.pc[t := p]) == AddsOf(s.pc);
    assert SubsOf(s.pc[t := p]) == SubsOf(s.pc);
  }

  // A node enters a bag or the store.
  lemma TallyRetire(s: State, t: nat, p: Pc, n: nat, to: Place)
    requires Tally(s) && t in s.pc && Adds(s.pc[t]) == {} && Adds(p) == {n} && Subs(p) == Subs(s.pc[t])
    requires n in s.place && s.place[n].Loose? && (to.Bagged? || to.Orphaned?)
    ensures Tally(s.(pc := s.pc[t := p], place := s.place[n := to]))
  {
    hide Split, Adds, Subs;
    SplitGrow(s.added, AddsOf(s.pc), Retired(s.place), t, n);
    assert {} + {n} == {n};
    assert AddsOf(s.pc[t := p]) == AddsOf(s.pc)[t := Adds(s.pc[t]) + {n}];
    assert SubsOf(s.pc[t := p]) == SubsOf(s.pc);
    assert Retired(s.place[n := to]) == Retired(s.place) + {n};
    assert Freed(s.place[n := to]) == Freed(s.place);
  }

  // A node leaves its list and is freed.
  lemma TallyFree(s: State, t: nat, p: Pc, n: nat)
    requires Tally(s) && t in s.pc && Adds(p) == Adds(s.pc[t]) && Subs(p) == Subs(s.pc[t]) + {n}
    requires n in s.place && (s.place[n].Bagged? || s.place[n].Orphaned?)
    ensures Tally(s.(pc := s.pc[t := p], place := s.place[n := Deleted]))
  {
    hide Split, Adds, Subs;
    SplitGrow(s.subtracted, SubsOf(s.pc), Freed(s.place), t, n);
    assert SubsOf(s.pc[t := p]) == SubsOf(s.pc)[t := Subs(s.pc[t]) + {n}];
    assert AddsOf(s.pc[t := p]) == AddsOf(s.pc);
    assert Retired(s.place[n := Deleted]) == Retired(s.place);
    assert Freed(s.place[n := Deleted]) == Freed(s.place) + {n};
  }

  lemma TallyCount(s: State, t: nat)
    requires Tally(s) && RetireEnabled(s, Count(t))
    ensures Tally(RetireApply(s, Count(t)))
  {
    hide Split, Retired, Freed;
    SplitSettle(s.added, AddsOf(s.pc), Retired(s.place), t);
    assert AddsOf(s.pc[t := Idle]) == AddsOf(s.pc)[t := {}];
    assert SubsOf(s.pc[t := Idle]) == SubsOf(s.pc);
  }

  lemma TallySubtract(s: State, t: nat)
    requires Tally(s) && ReclaimEnabled(s, Subtract(t))
    ensures Tally(ReclaimApply(s, Subtract(t)))
  {
    hide Split, Retired, Freed;
    SplitSettle(s.subtracted, SubsOf(s.pc), Freed(s.place), t);
    assert SubsOf(s.pc[t := Idle]) == SubsOf(s.pc)[t := {}];
    assert AddsOf(s.pc[t := Idle]) == AddsOf(s.pc);
  }

  // The fields the tally does not read.
  lemma TallyRest(s: State, s': State)
    requires Tally(s) && s'.added == s.added && s'.subtracted == s.subtracted && s'.retiredCount == s.retiredCount
    requires s'.pc == s.pc && s'.place == s.place
    ensures Tally(s')
  {
    hide Split, AddsOf, SubsOf, Retired, Freed;
  }

  lemma RetireTally(s: State, st: Step)
    requires Core(s) && Tally(s) && RetireEnabled(s, st)
    ensures Tally(RetireApply(s, st))
  {
    hide Core, Tally, Places;
    var s' := RetireApply(s, st);
    if st.Alloc? {
      AllocTally(s, st.n);
    } else if st.Count? {
      TallyCount(s, st.t);
    } else if st.Push? {
      HeldOf(s, st.t);
      if st.t in s.dead {
        TallySame(s, st.t, s'.pc[st.t], s.place);
      } else {
        TallyRetire(s, st.t, s'.pc[st.t], s.pc[st.t].n, Bagged(st.t));
        TallyRest(s.(pc := s'.pc, place := s'.place), s');
      }
    } else if st.Spill? {
      HeldOf(s, st.t);
      TallyRetire(s, st.t, s'.pc[st.t], s.pc[st.t].entry.ptr, Orphaned);
      TallyRest(s.(pc := s'.pc, place := s'.place), s');
    } else {
      RetireTallySame(s, st);
    }
  }

  lemma AllocTally(s: State, n: nat)
    requires Tally(s) && n !in s.place
    ensures Tally(s.(place := s.place[n := Live]))
  {
    hide Split, AddsOf, SubsOf;
    assert Retired(s.place[n := Live]) == Retired(s.place);
    assert Freed(s.place[n := Live]) == Freed(s.place);
  }

  lemma RetireTallySame(s: State, st: Step)
    requires Core(s) && Tally(s) && RetireEnabled(s, st) && (st.Unlink? || st.Stamp? || st.Store? || st.Exit? || st.HandOver?)
    ensures Tally(RetireApply(s, st))
  {
    hide Core, Tally, Places;
    var s' := RetireApply(s, st);
    if st.HandOver? {
      BagOf(s, st.t);
      HandedOver(s.place, s.unlinkedAt, s.bag[st.t], st.t);
    }
    assert Retired(s'.place) == Retired(s.place);
    assert Freed(s'.place) == Freed(s.place);
    TallySame(s, st.t, s'.pc[st.t], s'.place);
    TallyRest(s.(pc := s'.pc, place := s'.place), s');
  }

  lemma OrphanAt(s: State, i: nat)
    requires Core(s) && i < |s.orphans|
    ensures s.orphans[i].ptr in s.place && s.place[s.orphans[i].ptr] == Orphaned
  {
    hide Epochs, Guards, Scans, Fenced, Placed, Held, Bags;
  }

  lemma ReclaimTally(s: State, st: Step)
    requires Core(s) && Tally(s) && ReclaimEnabled(s, st)
    ensures Tally(ReclaimApply(s, st))
  {
    hide Core, Tally;
    if st.Subtract? {
      TallySubtract(s, st.t);
    } else if !Deletes(s, st) {
      ReclaimTallySame(s, st);
    } else if st.Drain? {
      BagOf(s, st.t);
      DrainTally(s, st.t);
    } else {
      OrphanAt(s, s.pc[st.t].i);
      SweepTally(s, st.t);
    }
  }

  lemma ReclaimTallySame(s: State, st: Step)
    requires Tally(s) && ReclaimEnabled(s, st) && !Deletes(s, st) && !st.Subtract?
    ensures Tally(ReclaimApply(s, st))
  {
    hide Tally, Retired, Freed;
    var s' := ReclaimApply(s, st);
    TallySame(s, st.t, s'.pc[st.t], s.place);
    TallyRest(s.(pc := s'.pc), s');
  }

  lemma DrainTally(s: State, t: nat)
    requires Tally(s) && ReclaimEnabled(s, Drain(t)) && Deletes(s, Drain(t))
    requires ListOk(s.place, s.unlinkedAt, s.bag[t], Bagged(t))
    ensures Tally(ReclaimApply(s, Drain(t)))
  {
    hide Tally;
    var s' := ReclaimApply(s, Drain(t));
    TallyFree(s, t, s'.pc[t], s.bag[t][s.pc[t].i].ptr);
    TallyRest(s.(pc := s'.pc, place := s'.place), s');
  }

  lemma SweepTally(s: State, t: nat)
    requires Tally(s) && ReclaimEnabled(s, Sweep(t)) && Deletes(s, Sweep(t))
    requires s.orphans[s.pc[t].i].ptr in s.place && s.place[s.orphans[s.pc[t].i].ptr] == Orphaned
    ensures Tally(ReclaimApply(s, Sweep(t)))
  {
    hide Tally;
    var s' := ReclaimApply(s, Sweep(t));
    TallyFree(s, t, s'.pc[t], s.orphans[s.pc[t].i].ptr);
    TallyRest(s.(pc := s'.pc, place := s'.place), s');
  }

  // ---- the lock and the recorded epochs --------------------------------------------------------------

  lemma RetireLocked(s: State, st: Step)
    requires Locked(s.pc, s.lock, s.orphans, s.orphanCount) && RetireEnabled(s, st)
    ensures var s' := RetireApply(s, st); Locked(s'.pc, s'.lock, s'.orphans, s'.orphanCount)
  {
    hide Places;
    if st.Alloc? {} else if st.Unlink? {} else if st.Stamp? {} else if st.Push? {} else if st.Spill? {}
    else if st.Store? {} else if st.Count? {} else if st.Exit? {} else {}
  }

  lemma ReclaimLocked(s: State, st: Step)
    requires Locked(s.pc, s.lock, s.orphans, s.orphanCount) && ReclaimEnabled(s, st)
    ensures var s' := ReclaimApply(s, st); Locked(s'.pc, s'.lock, s'.orphans, s'.orphanCount)
  {
    if st.LockSweep? {} else if st.Sweep? {} else {}
  }

  lemma RetireRecent(s: State, st: Step)
    requires Recent(s.g, s.pc, s.bag, s.orphans) && RetireEnabled(s, st)
    ensures var s' := RetireApply(s, st); Recent(s'.g, s'.pc, s'.bag, s'.orphans)
  {
    hide Places;
    if st.Push? {
      assert s.pc[st.t].e <= s.g;
    } else if st.HandOver? {
      assert AllUpTo(s.bag[st.t], s.g);
    } else if st.Spill? {}
  }

  lemma ReclaimRecent(s: State, st: Step)
    requires Recent(s.g, s.pc, s.bag, s.orphans) && ReclaimEnabled(s, st)
    ensures var s' := ReclaimApply(s, st); Recent(s'.g, s'.pc, s'.bag, s'.orphans)
  {
    hide AllUpTo, Without;
    if st.Drain? && Deletes(s, st) {
      WithoutUpTo(s.bag[st.t], s.pc[st.t].i, s.g);
    } else if st.Sweep? && Deletes(s, st) {
      WithoutUpTo(s.orphans, s.pc[st.t].i, s.g);
    } else if st.TickCas? {
      UpToMore(s.orphans, s.g);
      forall t | t in s.bag
        ensures AllUpTo(s.bag[t], s.g + 1)
      {
        UpToMore(s.bag[t], s.g);
      }
    }
  }

  lemma UpToMore(v: seq<Entry>, g: nat)
    requires AllUpTo(v, g)
    ensures AllUpTo(v, g + 1)
  {
  }

  lemma GuardRest(s: State, st: Step)
    requires Tally(s) && GuardEnabled(s, st)
    ensures var s' := GuardApply(s, st); Tally(s') && s' == s.(guard := s'.guard)
  {
    hide Split, AddsOf, SubsOf, Retired, Freed;
  }

  lemma InvStep(s: State, st: Step)
    requires Inv(s) && Enabled(s, st)
    ensures Inv(Apply(s, st))
  {
    hide Core, Tally, Locked, Recent, RetireApply, ReclaimApply, GuardApply, GuardEnabled, RetireEnabled, ReclaimEnabled;
    CoreStep(s, st);
    if GuardEnabled(s, st) {
      GuardRest(s, st);
    } else if RetireEnabled(s, st) {
      RetireTally(s, st);
      RetireLocked(s, st);
      RetireRecent(s, st);
    } else {
      ReclaimTally(s, st);
      ReclaimLocked(s, st);
      ReclaimRecent(s, st);
    }
  }

  lemma {:induction false} InvRun(s: State, steps: seq<Step>, s': State)
    requires Inv(s) && Run(s, steps, s')
    ensures Inv(s')
    decreases |steps|
  {
    hide Inv, Apply, Enabled;
    if steps != [] {
      InvStep(s, steps[0]);
      InvRun(Apply(s, steps[0]), steps[1..], s');
    }
  }

  lemma InitCore(s: State)
    requires Init(s)
    ensures Core(s)
  {
  }

  lemma InitTally(s: State)
    requires Init(s)
    ensures Tally(s)
  {
    assert Retired(s.place) == {} && Freed(s.place) == {};
  }

  lemma InitInv(s: State)
    requires Init(s)
    ensures Inv(s)
  {
    hide Core, Tally;
    InitCore(s);
    InitTally(s);
  }

  lemma Reachable(s0: State, steps: seq<Step>, s: State)
    requires Init(s0) && Run(s0, steps, s)
    ensures Inv(s)
  {
    hide Init, Inv;
    InitInv(s0);
    InvRun(s0, steps, s);
  }

  // ---- the theorems ---------------------------------------------------------------------------------

  // A deleted node had been unlinked before every guard open now announced, so no open guard has
  // read it.
  lemma NoDeleteUnderGuard(s0: State, steps: seq<Step>, s: State, n: nat, t: nat)
    requires Init(s0) && Run(s0, steps, s)
    requires n in s.place && s.place[n].Deleted? && t in s.guard && s.guard[t].In?
    ensures n in s.guard[t].gone && n !in s.guard[t].refs
  {
    hide Init, Run, Tally, Locked, Recent, Scans, Held, Bags, ListOk, Epochs, Placed;
    Reachable(s0, steps, s);
    assert GuardOk(s.g, s.unlinkedAt, s.guard[t]);
  }

  // A safe epoch, however old, still bounds everything the guards open now may read.
  lemma OldMinimumStaysValid(s0: State, steps: seq<Step>, s: State, t: nat, u: nat, n: nat)
    requires Init(s0) && Run(s0, steps, s)
    requires t in s.pc && HasMin(s.pc[t]) && !s.pc[t].Scanning?
    requires u in s.guard && s.guard[u].In? && n in s.unlinkedAt && n !in s.guard[u].gone
    ensures s.pc[t].m <= s.unlinkedAt[n]
  {
    hide Init, Run, Tally, Locked, Recent, Guards, Fenced, Held, Bags, ListOk, Epochs, Placed;
    Reachable(s0, steps, s);
    assert MinOk(s.g, s.unlinkedAt, s.guard, s.pc[t].m, {});
  }

  function Waiting(place: map<nat, Place>): (r: set<nat>) { set n | n in place && (place[n].Bagged? || place[n].Orphaned?) }

  // Each retired node is in one bag, in the store or deleted, once; retiredCount is off from the
  // number of those waiting only by the additions and subtractions still to be made.
  lemma RetireAccounting(s0: State, steps: seq<Step>, s: State)
    requires Init(s0) && Run(s0, steps, s)
    ensures forall n, t :: n in s.place && t in s.bag ==> (s.place[n] == Bagged(t) <==> Listed(s.bag[t], n))
    ensures forall n :: n in s.place ==> (s.place[n].Orphaned? <==> Listed(s.orphans, n))
    ensures forall n :: n in s.place && s.place[n].Bagged? ==> s.place[n].t in s.bag
    ensures forall t, i, j :: t in s.bag && 0 <= i < j < |s.bag[t]| ==> s.bag[t][i].ptr != s.bag[t][j].ptr
    ensures forall i, j :: 0 <= i < j < |s.orphans| ==> s.orphans[i].ptr != s.orphans[j].ptr
    ensures s.retiredCount == |Waiting(s.place)| - |Retired(s.place) - s.added| + |Freed(s.place) - s.subtracted|
  {
    hide Init, Run, Locked, Recent, Guards, Fenced, Scans, Held, Epochs, Placed;
    Reachable(s0, steps, s);
    assert (forall t :: t in s.bag ==> ListOk(s.place, s.unlinkedAt, s.bag[t], Bagged(t)));
    hide Bags;
    CountsOf(s);
  }

  lemma CountsOf(s: State)
    requires Tally(s)
    ensures s.retiredCount == |Waiting(s.place)| - |Retired(s.place) - s.added| + |Freed(s.place) - s.subtracted|
  {
    hide AddsOf, SubsOf;
    var r, f, w := Retired(s.place), Freed(s.place), Waiting(s.place);
    assert s.added <= r && s.subtracted <= f;
    assert r == w + f && w !! f;
    hide Retired, Freed, Waiting;
    Sum(w, f);
    Rest(s.added, r);
    Rest(s.subtracted, f);
  }

  lemma Rest(a: set<nat>, b: set<nat>)
    requires a <= b
    ensures |b| == |a| + |b - a|
  {
    assert b == a + (b - a);
    Sum(a, b - a);
  }

  // Between whole operations both counters are exact.
  lemma CountersExact(s0: State, steps: seq<Step>, s: State)
    requires Init(s0) && Run(s0, steps, s)
    ensures s.lock == {} ==> s.orphanCount == |s.orphans|
    ensures (forall t :: t in s.pc ==> s.pc[t].Idle?) ==> s.retiredCount == |Waiting(s.place)| && s.orphanCount == |s.orphans|
  {
    hide Init, Run, Core, Recent;
    Reachable(s0, steps, s);
    CountsOf(s);
    if forall t :: t in s.pc ==> s.pc[t].Idle? {
      assert Retired(s.place) - s.added == {};
      assert Freed(s.place) - s.subtracted == {};
      assert s.lock == {};
    }
  }

  lemma WithoutUpTo(v: seq<Entry>, i: nat, e0: nat)
    requires AllUpTo(v, e0) && i < |v|
    ensures AllUpTo(Without(v, i), e0)
  {
  }
}
