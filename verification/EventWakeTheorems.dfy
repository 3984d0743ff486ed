/**
 What holds in every run of EventWake: each wait is woken exactly once, a fiber is never in two
 places, SelfRemove arbitrates, and no signal misses a waiter registered before it began.
 */
module EventWakeTheorems {
  import opened EventWake
  import opened EventWakeSafety
  import opened EventWakeScan

  ghost predicate Fresh(f: Fiber) { f.status == Ready && f.pc == Off && f.tok == NoToken && f.loc == InPool }

  ghost predicate Unused(th: Thread)
  {
    th.pc == Rest && th.op == All && th.bits == {} && th.snap == map[] && th.hi == th.lo == th.out == multiset{}
  }

  ghost predicate Init(s: State)
  {
    && s.slots == map[] && s.occ == {} && s.built == {} && s.owner == map[] && s.fiberOf == map[]
    && s.ready == multiset{} && s.pool == s.fib.Keys && s.hist == []
    && (forall i :: i in s.fib ==> i < s.count && Fresh(s.fib[i]))
    && (forall w :: w in s.wrk ==> s.wrk[w] == Idle)
    && (forall t :: t in s.thr ==> Unused(s.thr[t]))
  }

  ghost predicate Run(s: State, steps: seq<Step>, s': State)
    decreases |steps|
  {
    if steps == [] then s' == s
    else Enabled(s, steps[0]) && Run(Apply(s, steps[0]), steps[1..], s')
  }

  ghost predicate Inv(s: State) { Core(s) && Firm(s) && Scan(s) }

  lemma InitInv(s: State)
    requires Init(s)
    ensures Inv(s)
  {
    assert Core(s) by { hide Scan, Firm; InitCore(s); }
    assert NoLost(s) && Scans(s);
  }

  lemma InitCore(s: State)
    requires Init(s)
    ensures Core(s)
  {
    hide Waking, Tidy;
    InitWaking(s);
    InitTidy(s);
  }

  lemma InitWaking(s: State)
    requires Init(s)
    ensures Waking(s.fib, s.fiberOf, s.slots, Hands(s.thr))
  {
    forall t | t in Hands(s.thr) ensures HandOk(s.fib, s.fiberOf, t, Hands(s.thr)[t]) {
      assert Unused(s.thr[t]);
    }
  }

  lemma InitTidy(s: State)
    requires Init(s)
    ensures Tidy(s.thr)
  {
  }

  lemma InvStep(s: State, st: Step)
    requires Inv(s) && Enabled(s, st)
    ensures Inv(Apply(s, st))
  {
    hide Core, Firm, Scan, FiberApply, WorkerApply, ThreadApply;
    if FiberEnabled(s, st) { FiberCore(s, st); FiberFirm(s, st); ScanFiber(s, st); }
    else if WorkerEnabled(s, st) { WorkerCore(s, st); WorkerFirm(s, st); ScanWorker(s, st); }
    else { ThreadCore(s, st); ThreadFirm(s, st); ScanThread(s, st); }
  }

  lemma WorkerFirm(s: State, st: Step)
    requires Core(s) && Firm(s) && WorkerEnabled(s, st)
    ensures Firm(WorkerApply(s, st))
  {
    hide Core, Firm, WorkerApply;
    if st.Acquire? || st.Pick? { FirmPick(s, st); } else { FirmWork(s, st); }
  }

  lemma {:induction false} InvRun(s: State, steps: seq<Step>, s': State)
    requires Inv(s) && Run(s, steps, s')
    ensures Inv(s')
    decreases |steps|
  {
    hide Inv, Enabled, Apply;
    if steps != [] {
      InvStep(s, steps[0]);
      InvRun(Apply(s, steps[0]), steps[1..], s');
    }
  }

  lemma Reached(s0: State, steps: seq<Step>, s: State)
    requires Init(s0) && Run(s0, steps, s)
    ensures Inv(s)
  {
    hide Init, Inv;
    InitInv(s0);
    InvRun(s0, steps, s);
  }

  // ---- wake exactly once ----------------------------------------------------------------------------

  datatype Actor = Caller(t: nat) | ByWorker(w: nat)

  // Actor a is bound to re-queue the fiber of wait k.
  ghost predicate Owes(s: State, a: Actor, k: nat)
  {
    match a
    case Caller(t) =>
      t in s.thr
      && ((Holds(s.thr[t]) && s.thr[t].hold.ticket == k) || exists x :: x in HandOf(s.thr[t]).owed && x.ticket == k)
    case ByWorker(w) =>
      At(s, w) && s.fib[s.wrk[w].f].ticket == k
      && (s.fib[s.wrk[w].f].status == SuspendSignaled || (s.wrk[w].Pushing? && s.wrk[w].wake))
  }

  ghost predicate OneOwes(s: State, k: nat) { exists a :: Owes(s, a, k) && forall b :: Owes(s, b, k) ==> b == a }

  // Who is bound to deliver a wake, by where its token is.
  ghost predicate Keeps(f: Fiber, a: Actor)
  {
    match f.tok
    case Held(t) => a == Caller(t)
    case Buffered(t) => a == Caller(t)
    case Signalled => f.loc.OnWorker? && a == ByWorker(f.loc.w)
    case AtWorker => f.loc.OnWorker? && a == ByWorker(f.loc.w)
    case _ => false
  }

  lemma OwesKeeps(s: State, a: Actor, k: nat)
    requires Core(s) && Owes(s, a, k)
    ensures k < |s.hist| && s.hist[k].fiber in s.fib
    ensures var f := s.fib[s.hist[k].fiber]; f.ticket == k && Keeps(f, a)
  {
    hide Core;
    if a.Caller? {
      if Holds(s.thr[a.t]) && s.thr[a.t].hold.ticket == k {
        Resuming(s, a.t);
        CurrentRec(s, s.fiberOf[s.thr[a.t].hold.task]);
      } else {
        var x :| x in HandOf(s.thr[a.t]).owed && x.ticket == k;
        Requeuing(s, a.t, x);
        CurrentRec(s, s.fiberOf[x.task]);
      }
    } else {
      Hosted(s, a.w);
      CurrentRec(s, s.wrk[a.w].f);
    }
  }

  lemma KeepsOwes(s: State, i: nat, a: Actor)
    requires Core(s) && i in s.fib && Keeps(s.fib[i], a)
    ensures Owes(s, a, s.fib[i].ticket)
  {
    hide Queueing, Binding, Placing, Logging, Tidy;
    assert FiberOk(s.fib[i], i, s.wrk) && TokenOk(i, s.fib[i], s.fiberOf, s.slots, Hands(s.thr));
    if a.Caller? {
      assert Hands(s.thr)[a.t] == HandOf(s.thr[a.t]);
      if s.fib[i].tok.Buffered? { assert Me(s.fib[i]) in HandOf(s.thr[a.t]).owed; }
    }
  }

  lemma RecOf(s: State, k: nat)
    requires Core(s) && k < |s.hist|
    ensures s.hist[k].fiber in s.fib
    ensures var f := s.fib[s.hist[k].fiber]; RecOk(s.hist[k], if f.ticket == k then f.tok else NoToken)
    ensures FiberOk(s.fib[s.hist[k].fiber], s.hist[k].fiber, s.wrk)
  {
    hide Queueing, Binding, Placing, Waking, Tidy;
  }

  // State form of the theorem.
  lemma WokenOnce(s: State, k: nat)
    requires Core(s) && k < |s.hist|
    ensures s.hist[k].stored <= 1 && s.hist[k].taken + s.hist[k].self <= s.hist[k].stored && s.hist[k].pushed <= s.hist[k].taken
    ensures s.hist[k].taken == 1 && s.hist[k].pushed == 0 ==> OneOwes(s, k)
    ensures s.hist[k].taken == 0 || s.hist[k].pushed == 1 ==> forall b :: !Owes(s, b, k)
  {
    hide Core, Owes;
    RecOf(s, k);
    var f := s.fib[s.hist[k].fiber];
    forall b | Owes(s, b, k) ensures f.ticket == k && Keeps(f, b) { OwesKeeps(s, b, k); }
    if s.hist[k].taken == 1 && s.hist[k].pushed == 0 {
      var a := if f.tok.Held? || f.tok.Buffered? then Caller(f.tok.t) else ByWorker(f.loc.w);
      KeepsOwes(s, s.hist[k].fiber, a);
      assert Owes(s, a, k);
    }
  }

  /** Every wait is stored at most once, taken out of its cell at most once, and re-queued at most
      once.  If a signaller or canceller took it, then either its one re-queue has happened and
      nobody is left to do another, or it has not and exactly one actor is bound to it: the caller
      that took it, or the worker parking its fiber.  If nobody or the waiter itself took it, no
      re-queue happened and nobody is bound to one. */
  lemma WakeExactlyOnce(s0: State, steps: seq<Step>, s: State, k: nat)
    requires Init(s0) && Run(s0, steps, s) && k < |s.hist|
    ensures s.hist[k].stored <= 1 && s.hist[k].taken + s.hist[k].self <= s.hist[k].stored && s.hist[k].pushed <= s.hist[k].taken
    ensures s.hist[k].taken == 1 && s.hist[k].pushed == 0 ==> OneOwes(s, k)
    ensures s.hist[k].taken == 0 || s.hist[k].pushed == 1 ==> forall b :: !Owes(s, b, k)
  {
    hide Init, OneOwes, Owes;
    Reached(s0, steps, s);
    hide Core;
    WokenOnce(s, k);
  }

  // ---- what has been recorded stays recorded ----------------------------------------------------------

  ghost predicate Later(h: seq<Rec>, h': seq<Rec>)
  {
    |h| <= |h'| && forall k :: 0 <= k < |h| ==>
      h'[k].stored >= h[k].stored && h'[k].taken >= h[k].taken && h'[k].self >= h[k].self && h'[k].pushed >= h[k].pushed
  }

  lemma LaterStep(s: State, st: Step)
    requires Enabled(s, st)
    ensures Later(s.hist, Apply(s, st).hist)
  {
    if FiberEnabled(s, st) { LaterFiber(s, st); }
    else if WorkerEnabled(s, st) { LaterWorker(s, st); }
    else { LaterThread(s, st); }
  }

  lemma LaterFiber(s: State, st: Step)
    requires FiberEnabled(s, st)
    ensures Later(s.hist, FiberApply(s, st).hist)
  {
    if st.Mark? || st.Store? || st.SelfTake? { LaterWait(s, st); } else { LaterCalm(s, st); }
  }

  lemma LaterWait(s: State, st: Step)
    requires FiberEnabled(s, st) && (st.Mark? || st.Store? || st.SelfTake?)
    ensures Later(s.hist, FiberApply(s, st).hist)
  {
    if st.Mark? {} else if st.Store? {} else {}
  }

  lemma LaterCalm(s: State, st: Step)
    requires FiberEnabled(s, st) && !st.Mark? && !st.Store? && !st.SelfTake?
    ensures Later(s.hist, FiberApply(s, st).hist)
  {
    if st.Reserve? {} else if st.CheckOut? {} else if st.CheckIn? {} else if st.SetBit? {} else if st.Unlist? {}
    else if st.KeepRunning? {} else if st.MarkYield? {} else if st.MarkDead? {} else {}
  }

  lemma LaterWorker(s: State, st: Step)
    requires WorkerEnabled(s, st)
    ensures Later(s.hist, WorkerApply(s, st).hist)
  {
    if st.Acquire? {} else if st.Pick? {} else if st.SwitchIn? {} else if st.Inspect? {}
    else if st.YieldReady? {} else if st.Park? {} else if st.WakeReady? {} else {}
  }

  lemma LaterThread(s: State, st: Step)
    requires ThreadEnabled(s, st)
    ensures Later(s.hist, ThreadApply(s, st).hist)
  {
    hide Word, Registered, Collect, FinalBatch, After;
    if st.TakeSlot? || st.TakeCell? || st.Requeue? { LaterTaken(s, st); } else { LaterQuiet(s, st); }
  }

  lemma LaterTaken(s: State, st: Step)
    requires ThreadEnabled(s, st) && (st.TakeSlot? || st.TakeCell? || st.Requeue?)
    ensures Later(s.hist, ThreadApply(s, st).hist)
  {
    if st.TakeSlot? {} else if st.TakeCell? {} else {}
  }

  lemma LaterQuiet(s: State, st: Step)
    requires ThreadEnabled(s, st) && !st.TakeSlot? && !st.TakeCell? && !st.Requeue?
    ensures Later(s.hist, ThreadApply(s, st).hist)
  {
    hide Word, Registered, Collect, FinalBatch, After;
    if st.Begin? {} else if st.LoadWord? {} else if st.ExchangeWord? {} else if st.ClaimBit? {} else if st.NextWord? {}
    else if st.MarkCancelled? {} else if st.LoadStatus? {} else if st.CasReady? {} else if st.CasSignal? {} else {}
  }

  lemma {:induction false} LaterRun(s: State, steps: seq<Step>, s': State)
    requires Run(s, steps, s')
    ensures Later(s.hist, s'.hist)
    decreases |steps|
  {
    hide Enabled, Apply;
    if steps != [] {
      LaterStep(s, steps[0]);
      LaterRun(Apply(s, steps[0]), steps[1..], s');
    }
  }

  // ---- SelfRemove ---------------------------------------------------------------------------------

  /** If SelfRemove finds its own waiter it returns true, and then in every later state nobody has
      resumed this wait and nobody is bound to.  If it returns false, then in every later state some
      caller has taken the wait and its one re-queue has happened or exactly one actor is bound to
      it, whether the fiber has parked meanwhile or not. */
  lemma SelfRemoveArbitrates(s0: State, steps: seq<Step>, s: State, w: nat, more: seq<Step>, s': State)
    requires Init(s0) && Run(s0, steps, s) && FiberEnabled(s, SelfTake(w)) && Run(Apply(s, SelfTake(w)), more, s')
    ensures var k := Cur(s, w).ticket; k < |s'.hist|
    ensures var r := s'.hist[Cur(s, w).ticket];
            if Cur(s, w).place in s.slots then r.self == 1 && r.taken == 0 && r.pushed == 0
            else r.taken == 1 && r.self == 0 && r.pushed <= 1
    ensures var k := Cur(s, w).ticket;
            if Cur(s, w).place in s.slots || s'.hist[k].pushed == 1 then forall a :: !Owes(s', a, k) else OneOwes(s', k)
  {
    hide Init, Owes, OneOwes, Core;
    Reached(s0, steps, s);
    Hosted(s, w);
    var i := s.wrk[w].f;
    CurrentRec(s, i);
    if s.fib[i].place in s.slots { OwnSlot(s, i); } else { NotInSlot(s, i); }
    assert Apply(s, SelfTake(w)) == FiberApply(s, SelfTake(w));
    InvStep(s, SelfTake(w));
    InvRun(Apply(s, SelfTake(w)), more, s');
    LaterRun(Apply(s, SelfTake(w)), more, s');
    WokenOnce(s', s.fib[i].ticket);
  }

  lemma NotInSlot(s: State, i: nat)
    requires Core(s) && i in s.fib && s.fib[i].place !in s.slots
    ensures s.fib[i].tok != InSlot
  {
    hide Hosting, Queueing, Binding, Placing, Logging, Tidy;
    assert TokenOk(i, s.fib[i], s.fiberOf, s.slots, Hands(s.thr));
  }

  // ---- one fiber, one place --------------------------------------------------------------------------

  /** A fiber is on at most one worker; it is in the work queues at most once, and then on no worker
      and with its context saved. */
  lemma OneFiberOnePlace(s0: State, steps: seq<Step>, s: State)
    requires Init(s0) && Run(s0, steps, s)
    ensures forall w1, w2 :: At(s, w1) && At(s, w2) && s.wrk[w1].f == s.wrk[w2].f ==> w1 == w2
    ensures forall i :: i in s.ready ==> s.ready[i] == 1 && i in s.fib && s.fib[i].pc == Off && s.fib[i].status == Ready
    ensures forall i, w :: i in s.ready && At(s, w) ==> s.wrk[w].f != i
  {
    hide Init;
    Reached(s0, steps, s);
    hide Binding, Placing, Waking, Logging, Tidy, Firm, Scan;
  }

  /** A caller about to resume a waiter, mark it cancelled or re-queue it holds a live task whose
      fiber is still in that wait: it never dereferences a null fiber, never writes to a recycled
      task, and never finds the fiber in a state in which ResumeQueueless drops the wake. */
  lemma ResumeFindsWaiter(s0: State, steps: seq<Step>, s: State, t: nat)
    requires Init(s0) && Run(s0, steps, s) && t in s.thr
    ensures Holds(s.thr[t]) ==>
              Deref(s, s.thr[t])
              && s.fib[s.fiberOf[s.thr[t].hold.task]].status in {WantsSuspend, Suspended}
              && s.fib[s.fiberOf[s.thr[t].hold.task]].ticket == s.thr[t].hold.ticket
    ensures s.thr[t].pc == ResumeReady ==> s.fib[s.fiberOf[s.thr[t].hold.task]].status == Suspended
    ensures forall x :: x in s.thr[t].out ==>
              x.task in s.fiberOf && s.fiberOf[x.task] in s.fib
              && s.fib[s.fiberOf[x.task]].status == Ready && s.fib[s.fiberOf[x.task]].pc == Off
  {
    hide Init, Core;
    Reached(s0, steps, s);
    if Holds(s.thr[t]) { Resuming(s, t); }
    forall x | x in s.thr[t].out
      ensures x.task in s.fiberOf && s.fiberOf[x.task] in s.fib
      ensures s.fib[s.fiberOf[x.task]].status == Ready && s.fib[s.fiberOf[x.task]].pc == Off
    {
      Requeuing(s, t, x);
    }
  }

  // ---- no lost waiter --------------------------------------------------------------------------------

  /** A waiter in an Event slot has its bit set, or its own AddWaiter is between its two stores, or
      its own SelfRemove is between its two, or some remover has cleared the bit and still owes the
      exchange of that slot. */
  lemma NoLostWaiter(s0: State, steps: seq<Step>, s: State, p: Place)
    requires Init(s0) && Run(s0, steps, s) && p in s.slots && p.Slot?
    ensures p.i in s.fib
    ensures p in s.occ || s.fib[p.i].pc in {Stored, Unlisted} || exists t :: t in s.thr && Claims(s.thr[t], p)
  {
    hide Init, Core;
    Reached(s0, steps, s);
    SlotPlace(s, p);
    assert Guarded(s, p);
  }

  // A scan that ended without stopping at a waiter.
  ghost predicate Swept(th: Thread)
  {
    th.pc.Done? && (th.op.All? || th.op.Cancel? || (th.op.One? && th.pc == Done(false)))
  }

  lemma SweptSnap(s: State, t: nat, i: nat)
    requires Core(s) && Scan(s) && t in s.thr && Swept(s.thr[t]) && i in s.thr[t].snap
    ensures i in s.fib && s.thr[t].snap[i] < |s.hist| && s.hist[s.thr[t].snap[i]].fiber == i
    ensures Settled(s, t, Slot(s.thr[t].e, i), s.thr[t].snap[i])
  {
    hide Core;
    var th := s.thr[t];
    assert SnapOk(s, th) && BitsOk(th);
    var k := th.snap[i];
    RecOf(s, k);
    if s.hist[k].taken + s.hist[k].self != 1 {
      CurrentRec(s, i);
      StillPublished(s, i);
      assert Guarded(s, Slot(th.e, i));
    }
  }

  // Wait k, published at slot p, has been taken, or another remover is bound to exchange it out.
  ghost predicate Settled(s: State, t: nat, p: Place, k: nat)
    requires p.Slot? && p.i in s.fib && k < |s.hist|
  {
    || s.hist[k].taken + s.hist[k].self == 1
    || (p in s.slots && s.slots[p].ticket == k
        && (s.fib[p.i].pc == Unlisted || exists u :: u in s.thr && u != t && Claims(s.thr[u], p)))
  }

  ghost predicate SameCall(t: nat, steps: seq<Step>) { forall j :: 0 <= j < |steps| && steps[j].Begin? ==> steps[j].t != t }

  lemma CallStep(s: State, st: Step, t: nat)
    requires Enabled(s, st) && t in s.thr && (st.Begin? ==> st.t != t)
    ensures var s' := Apply(s, st); t in s'.thr && s'.thr[t].snap == s.thr[t].snap && s'.thr[t].e == s.thr[t].e
  {
    hide FiberApply, WorkerApply, Word, Registered, Collect;
    if FiberEnabled(s, st) { CallFiber(s, st); }
    else if WorkerEnabled(s, st) { CallWorker(s, st); }
    else if st.Begin? { assert ThreadApply(s, st).thr == s.thr[st.t := ThreadApply(s, st).thr[st.t]]; }
    else {
      hide ThreadApply;
      if st.LoadWord? { CallLoad(s, st.t); }
      else if st.ExchangeWord? || st.ClaimBit? || st.NextWord? { CallScan(s, st); }
      else if st.CasReady? || st.CasSignal? || st.Requeue? || st.NextBatch? { CallWake(s, st); }
      else if st.TakeSlot? || st.TakeCell? { CallTake(s, st); }
      else { CallResume(s, st); }
    }
  }

  lemma CallFiber(s: State, st: Step)
    requires FiberEnabled(s, st)
    ensures FiberApply(s, st).thr == s.thr
  {
    if st.Reserve? || st.CheckOut? || st.CheckIn? || st.Mark? || st.Store? || st.SelfTake? { CallWait(s, st); } else { CallCalm(s, st); }
  }

  lemma CallWait(s: State, st: Step)
    requires FiberEnabled(s, st) && (st.Reserve? || st.CheckOut? || st.CheckIn? || st.Mark? || st.Store? || st.SelfTake?)
    ensures FiberApply(s, st).thr == s.thr
  {
    if st.Reserve? {} else if st.CheckOut? {} else if st.CheckIn? {} else if st.Mark? {} else if st.Store? {} else {}
  }

  lemma CallCalm(s: State, st: Step)
    requires FiberEnabled(s, st) && !st.Reserve? && !st.CheckOut? && !st.CheckIn? && !st.Mark? && !st.Store? && !st.SelfTake?
    ensures FiberApply(s, st).thr == s.thr
  {
    if st.SetBit? {} else if st.Unlist? {} else if st.KeepRunning? {} else if st.MarkYield? {} else if st.MarkDead? {} else {}
  }

  lemma CallWorker(s: State, st: Step)
    requires WorkerEnabled(s, st)
    ensures WorkerApply(s, st).thr == s.thr
  {
    if st.Inspect? || st.Park? { CallPark(s, st); } else { CallOther(s, st); }
  }

  lemma CallPark(s: State, st: Step)
    requires WorkerEnabled(s, st) && (st.Inspect? || st.Park?)
    ensures WorkerApply(s, st).thr == s.thr
  {
    if st.Inspect? {} else {}
  }

  lemma CallOther(s: State, st: Step)
    requires WorkerEnabled(s, st) && !st.Inspect? && !st.Park?
    ensures WorkerApply(s, st).thr == s.thr
  {
    if st.Acquire? {} else if st.Pick? {} else if st.SwitchIn? {} else if st.YieldReady? {} else if st.WakeReady? {} else {}
  }

  // Thread t alone changes, and stays in the same call.
  ghost predicate SameScan(s: State, s': State, t: nat)
  {
    && t in s.thr && t in s'.thr && s'.thr == s.thr[t := s'.thr[t]]
    && s'.thr[t].snap == s.thr[t].snap && s'.thr[t].e == s.thr[t].e
  }

  lemma CallSet(s: State, t: nat, th: Thread, occ: set<Place>)
    requires t in s.thr && th.snap == s.thr[t].snap && th.e == s.thr[t].e
    ensures SameScan(s, SetThread(s, t, th).(occ := occ), t)
  {
  }

  lemma CallLoad(s: State, t: nat)
    requires ThreadEnabled(s, LoadWord(t))
    ensures SameScan(s, ThreadApply(s, LoadWord(t)), t)
  {
    hide Word, SameScan;
    var th := s.thr[t];
    if s.count <= 64 * th.w { CallSet(s, t, th.(pc := if th.op.One? then Done(false) else Flush(true)), s.occ); }
    else if !th.op.All? { CallSet(s, t, th.(bits := Word(s, th.e, th.w), pc := Loop), s.occ); }
    else if Word(s, th.e, th.w) == {} { CallSet(s, t, th.(w := th.w + 1), s.occ); }
    else { CallSet(s, t, th.(pc := Exchange), s.occ); }
  }

  lemma CallScan(s: State, st: Step)
    requires ThreadEnabled(s, st) && (st.ExchangeWord? || st.ClaimBit? || st.NextWord?)
    ensures SameScan(s, ThreadApply(s, st), st.t)
  {
    hide Word, SameScan;
    var th := s.thr[st.t];
    if st.ExchangeWord? {
      CallSet(s, st.t, th.(bits := Word(s, th.e, th.w), pc := Loop), s.occ - (set i | i in Word(s, th.e, th.w) :: Slot(th.e, i)));
    } else if st.NextWord? {
      CallSet(s, st.t, th.(w := th.w + 1, pc := Load), s.occ);
    } else if th.op.All? {
      CallSet(s, st.t, th.(bits := th.bits - {st.b}, pc := Claimed(st.b)), s.occ);
    } else {
      CallSet(s, st.t, th.(bits := th.bits - {st.b}, pc := if Slot(th.e, st.b) in s.occ then Claimed(st.b) else Loop),
              s.occ - {Slot(th.e, st.b)});
    }
  }

  lemma CallTake(s: State, st: Step)
    requires ThreadEnabled(s, st) && (st.TakeSlot? || st.TakeCell?)
    ensures SameScan(s, ThreadApply(s, st), st.t)
  {
    hide SameScan, Take;
    var th := s.thr[st.t];
    var p := if st.TakeSlot? then Slot(th.e, th.pc.i) else Direct(th.op.d);
    if p in s.slots {
      CallTaken(s, st.t, p, if st.TakeSlot? && th.op.Cancel? then Marking else ResumeLoad);
    } else {
      CallSet(s, st.t, th.(pc := if st.TakeSlot? then Loop else Done(false)), s.occ);
    }
  }

  lemma CallTaken(s: State, t: nat, p: Place, pc: ThreadPc)
    requires t in s.thr && p in s.slots
    ensures SameScan(s, Take(s, t, p, pc), t)
  {
  }

  lemma CallResume(s: State, st: Step)
    requires ThreadEnabled(s, st) && (st.MarkCancelled? || st.LoadStatus?)
    ensures SameScan(s, ThreadApply(s, st), st.t)
  {
    if st.MarkCancelled? {} else {}
  }

  lemma CallWake(s: State, st: Step)
    requires ThreadEnabled(s, st) && (st.CasReady? || st.CasSignal? || st.Requeue? || st.NextBatch?)
    ensures SameScan(s, ThreadApply(s, st), st.t)
  {
    hide Collect;
    if st.Requeue? || st.NextBatch? { CallFlush(s, st); } else { CallCas(s, st); }
  }

  lemma CallFlush(s: State, st: Step)
    requires ThreadEnabled(s, st) && (st.Requeue? || st.NextBatch?)
    ensures SameScan(s, ThreadApply(s, st), st.t)
  {
    if st.Requeue? {} else {}
  }

  lemma CallCas(s: State, st: Step)
    requires ThreadEnabled(s, st) && (st.CasReady? || st.CasSignal?)
    ensures SameScan(s, ThreadApply(s, st), st.t)
  {
    hide Collect;
    Collected(s, s.thr[st.t]);
    if st.CasReady? {} else {}
  }

  lemma {:induction false} CallRun(s: State, steps: seq<Step>, s': State, t: nat)
    requires Run(s, steps, s') && t in s.thr && SameCall(t, steps)
    ensures t in s'.thr && s'.thr[t].snap == s.thr[t].snap && s'.thr[t].e == s.thr[t].e
    decreases |steps|
  {
    hide Enabled, Apply;
    if steps != [] {
      CallStep(s, steps[0], t);
      CallRun(Apply(s, steps[0]), steps[1..], s', t);
    }
  }

  lemma SnapFiber(s: State, t: nat, i: nat)
    requires Scan(s) && t in s.thr && i in s.thr[t].snap
    ensures i in s.fib && s.thr[t].snap[i] < |s.hist|
  {
    assert SnapOk(s, s.thr[t]);
  }

  lemma StillPublished(s: State, i: nat)
    requires Core(s) && i in s.fib && s.fib[i].tok == InSlot
    ensures s.fib[i].place in s.slots && s.slots[s.fib[i].place] == Me(s.fib[i])
  {
    hide Hosting, Queueing, Binding, Placing, Logging, Tidy;
    assert TokenOk(i, s.fib[i], s.fiberOf, s.slots, Hands(s.thr));
  }

  /** SignalOne takes at most one waiter, and returns true exactly when it took one. */
  lemma SignalOneTakesOne(s0: State, steps: seq<Step>, s: State, t: nat)
    requires Init(s0) && Run(s0, steps, s) && t in s.thr && s.thr[t].op.One?
    ensures s.thr[t].took <= 1
    ensures s.thr[t].pc.Done? ==> (s.thr[t].pc.woke <==> s.thr[t].took == 1)
  {
    hide Init, Core;
    Reached(s0, steps, s);
    TidyOf(s, t);
  }
}
