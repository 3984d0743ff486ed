/**
 What a scan of the waiter table is bound to find: exactly the waiters registered before it loads
 their word.  SignalOne loads each word once, so a waiter who registers in a word it has passed stays
 in the table while it answers that nobody waits.
 */
module EventWakeBoundary {
  import opened EventWake
  import opened EventWakeSafety
  import opened EventWakeScan
  import opened EventWakeTheorems

  // The scan has still to load the word of fiber i; a DirectEvent's signal, which scans nothing, never
  // gets there.
  ghost predicate Ahead(th: Thread, i: nat)
  {
    th.op.Single? ||
    match th.pc
    case Load => i / 64 >= th.w
    case Exchange => i / 64 >= th.w
    case Flush(last) => !last && i / 64 > th.w
    case Done(_) => false
    case SignalCell => false
    case Rest => false
    case _ => i / 64 > th.w
  }

  // ---- the snapshot of a thread is history ---------------------------------------------------------

  // As if thread t had begun with the snapshot m.
  function Snapped(s: State, t: nat, m: map<nat, nat>): (s': State)
    requires t in s.thr
  {
    s.(thr := s.thr[t := s.thr[t].(snap := m)])
  }

  lemma FiberSnapWait(s: State, st: Step, x: map<nat, Thread>)
    requires FiberEnabled(s, st) && (st.Reserve? || st.CheckOut? || st.CheckIn? || st.Mark? || st.Store? || st.SelfTake?)
    ensures FiberEnabled(s.(thr := x), st) && FiberApply(s.(thr := x), st) == FiberApply(s, st).(thr := x)
  {
    if st.Reserve? {} else if st.CheckOut? {} else if st.CheckIn? {} else if st.Mark? {} else if st.Store? {} else {}
  }

  lemma FiberSnapCalm(s: State, st: Step, x: map<nat, Thread>)
    requires FiberEnabled(s, st) && !st.Reserve? && !st.CheckOut? && !st.CheckIn? && !st.Mark? && !st.Store? && !st.SelfTake?
    ensures FiberEnabled(s.(thr := x), st) && FiberApply(s.(thr := x), st) == FiberApply(s, st).(thr := x)
  {
    if st.SetBit? {} else if st.Unlist? {} else if st.KeepRunning? {} else if st.MarkYield? {} else if st.MarkDead? {} else {}
  }

  lemma WorkerSnapPark(s: State, st: Step, x: map<nat, Thread>)
    requires WorkerEnabled(s, st) && (st.Inspect? || st.Park? || st.Push?)
    ensures WorkerEnabled(s.(thr := x), st) && WorkerApply(s.(thr := x), st) == WorkerApply(s, st).(thr := x)
  {
    if st.Inspect? {} else if st.Park? {} else {}
  }

  lemma WorkerSnapOther(s: State, st: Step, x: map<nat, Thread>)
    requires WorkerEnabled(s, st) && !st.Inspect? && !st.Park? && !st.Push?
    ensures WorkerEnabled(s.(thr := x), st) && WorkerApply(s.(thr := x), st) == WorkerApply(s, st).(thr := x)
  {
    if st.Acquire? {} else if st.Pick? {} else if st.SwitchIn? {} else if st.YieldReady? {} else {}
  }

  // A caller's step does not read the snapshot of thread t, its own or another's.
  ghost predicate Blind(s: State, st: Step, t: nat, m: map<nat, nat>)
    requires t in s.thr && ThreadEnabled(s, st)
  {
    && ThreadEnabled(Snapped(s, t, m), st) && t in ThreadApply(s, st).thr
    && ThreadApply(Snapped(s, t, m), st) == Snapped(ThreadApply(s, st), t, m)
  }

  // Everything but t's snapshot is as before.
  lemma SnapFields(s: State, t: nat, m: map<nat, nat>)
    requires t in s.thr
    ensures var x := Snapped(s, t, m);
            && x.thr.Keys == s.thr.Keys && (forall u :: u in s.thr ==> x.thr[u] == Resnapped(s.thr[u], u == t, m))
            && x.count == s.count && x.slots == s.slots && x.occ == s.occ && x.built == s.built && x.fib == s.fib
            && x.fiberOf == s.fiberOf && x.urgent == s.urgent && x.cancelled == s.cancelled && x.hist == s.hist && x.ready == s.ready
            && (forall e, w :: Word(x, e, w) == Word(s, e, w)) && (forall e :: Registered(x, e) == Registered(s, e))
  {
  }

  function Resnapped(th: Thread, own: bool, m: map<nat, nat>): (r: Thread) { if own then th.(snap := m) else th }

  // Setting one thread and snapping another, or the same, in either order.
  lemma SnapSet(s: State, u: nat, th: Thread, occ: set<Place>, t: nat, m: map<nat, nat>)
    requires t in s.thr && u in s.thr
    ensures t in SetThread(s, u, th).thr
    ensures SetThread(Snapped(s, t, m), u, Resnapped(th, u == t, m)).(occ := occ) == Snapped(SetThread(s, u, th).(occ := occ), t, m)
    ensures SetThread(Snapped(s, t, m), u, Resnapped(th, u == t, m)) == Snapped(SetThread(s, u, th), t, m)
  {
    var a, b := s.thr[t := s.thr[t].(snap := m)], s.thr[u := th];
    assert a[u := Resnapped(th, u == t, m)] == b[t := b[t].(snap := m)];
  }

  lemma BlindLoad(s: State, u: nat, t: nat, m: map<nat, nat>)
    requires t in s.thr && ThreadEnabled(s, LoadWord(u))
    ensures Blind(s, LoadWord(u), t, m)
  {
    hide Word, Registered, SetThread, Snapped;
    SnapFields(s, t, m);
    var th, bits := s.thr[u], Word(s, s.thr[u].e, s.thr[u].w);
    if s.count <= 64 * th.w { SnapSet(s, u, th.(pc := if th.op.One? then Done(false) else Flush(true)), s.occ, t, m); }
    else if !th.op.All? { SnapSet(s, u, th.(bits := bits, pc := Loop), s.occ, t, m); }
    else if bits == {} { SnapSet(s, u, th.(w := th.w + 1), s.occ, t, m); }
    else { SnapSet(s, u, th.(pc := Exchange), s.occ, t, m); }
  }

  lemma BlindExchange(s: State, u: nat, t: nat, m: map<nat, nat>)
    requires t in s.thr && ThreadEnabled(s, ExchangeWord(u))
    ensures Blind(s, ExchangeWord(u), t, m)
  {
    hide Word, Registered, SetThread, Snapped;
    SnapFields(s, t, m);
    var th := s.thr[u];
    SnapSet(s, u, th.(bits := Word(s, th.e, th.w), pc := Loop), s.occ - (set i | i in Word(s, th.e, th.w) :: Slot(th.e, i)), t, m);
  }

  lemma BlindClaim(s: State, st: Step, t: nat, m: map<nat, nat>)
    requires t in s.thr && ThreadEnabled(s, st) && (st.ClaimBit? || st.NextWord?)
    ensures Blind(s, st, t, m)
  {
    hide Word, Registered, SetThread, Snapped;
    SnapFields(s, t, m);
    var u, th := st.t, s.thr[st.t];
    if st.NextWord? { SnapSet(s, u, th.(w := th.w + 1, pc := Load), s.occ, t, m); }
    else if th.op.All? { SnapSet(s, u, th.(bits := th.bits - {st.b}, pc := Claimed(st.b)), s.occ, t, m); }
    else {
      SnapSet(s, u, th.(bits := th.bits - {st.b}, pc := if Slot(th.e, st.b) in s.occ then Claimed(st.b) else Loop),
              s.occ - {Slot(th.e, st.b)}, t, m);
    }
  }

  lemma BlindBegin(s: State, st: Step, t: nat, m: map<nat, nat>)
    requires t in s.thr && ThreadEnabled(s, st) && st.Begin? && st.t != t
    ensures Blind(s, st, t, m)
  {
    SnapSet(s, st.t, ThreadApply(s, st).thr[st.t], s.occ, t, m);
    hide Word, Registered, Snapped;
    SnapFields(s, t, m);
  }

  // The exchange of a waiter out of its place, with what it writes beside the thread.
  lemma TakeSnap(s: State, u: nat, p: Place, pc: ThreadPc, t: nat, m: map<nat, nat>)
    requires t in s.thr && u in s.thr && p in s.slots
    ensures t in Take(s, u, p, pc).thr && Take(Snapped(s, t, m), u, p, pc) == Snapped(Take(s, u, p, pc), t, m)
  {
    SnapSet(s, u, s.thr[u].(hold := s.slots[p], pc := pc, took := s.thr[u].took + 1), s.occ, t, m);
  }

  lemma BlindTake(s: State, st: Step, t: nat, m: map<nat, nat>)
    requires t in s.thr && ThreadEnabled(s, st) && (st.TakeSlot? || st.TakeCell?)
    ensures Blind(s, st, t, m)
  {
    hide Word, Registered, SetThread, Snapped, Take;
    SnapFields(s, t, m);
    var th := s.thr[st.t];
    var p := if st.TakeSlot? then Slot(th.e, th.pc.i) else Direct(th.op.d);
    if p in s.slots {
      TakeSnap(s, st.t, p, if st.TakeSlot? && th.op.Cancel? then Marking else ResumeLoad, t, m);
    } else {
      SnapSet(s, st.t, th.(pc := if st.TakeSlot? then Loop else Done(false)), s.occ, t, m);
    }
  }

  lemma BlindMark(s: State, u: nat, t: nat, m: map<nat, nat>)
    requires t in s.thr && ThreadEnabled(s, MarkCancelled(u))
    ensures Blind(s, MarkCancelled(u), t, m)
  {
    SnapSet(s, u, s.thr[u].(pc := ResumeLoad), s.occ, t, m);
  }

  lemma BlindStatus(s: State, u: nat, t: nat, m: map<nat, nat>)
    requires t in s.thr && ThreadEnabled(s, LoadStatus(u))
    ensures Blind(s, LoadStatus(u), t, m)
  {
    hide Word, Registered, SetThread, Snapped;
    SnapFields(s, t, m);
    var th, status := s.thr[u], s.fib[s.fiberOf[s.thr[u].hold.task]].status;
    SnapSet(s, u, if status == Suspended then th.(pc := ResumeReady) else if status == WantsSuspend then th.(pc := ResumeSignal) else After(th),
            s.occ, t, m);
  }

  // A thread and a fiber change together.
  lemma SnapBoth(s: State, u: nat, th: Thread, i: nat, f: Fiber, t: nat, m: map<nat, nat>)
    requires t in s.thr && u in s.thr
    ensures t in SetFiber(SetThread(s, u, th), i, f).thr
    ensures SetFiber(SetThread(Snapped(s, t, m), u, Resnapped(th, u == t, m)), i, f) == Snapped(SetFiber(SetThread(s, u, th), i, f), t, m)
  {
    SnapSet(s, u, th, s.occ, t, m);
  }

  lemma CollectSnap(s: State, th: Thread, own: bool, t: nat, m: map<nat, nat>)
    requires t in s.thr
    ensures Collect(Snapped(s, t, m), Resnapped(th, own, m)) == Resnapped(Collect(s, th), own, m)
  {
  }

  lemma BlindReady(s: State, u: nat, t: nat, m: map<nat, nat>)
    requires t in s.thr && ThreadEnabled(s, CasReady(u))
    ensures Blind(s, CasReady(u), t, m)
  {
    hide Word, Registered, SetThread, SetFiber, Snapped, Collect;
    SnapFields(s, t, m);
    var th := s.thr[u];
    var i := s.fiberOf[th.hold.task];
    CollectSnap(s, th, u == t, t, m);
    if s.fib[i].status == Suspended {
      SnapBoth(s, u, Collect(s, th), i, s.fib[i].(status := Ready, tok := Buffered(u)), t, m);
    } else {
      SnapSet(s, u, After(th), s.occ, t, m);
    }
  }

  lemma BlindSignal(s: State, u: nat, t: nat, m: map<nat, nat>)
    requires t in s.thr && ThreadEnabled(s, CasSignal(u))
    ensures Blind(s, CasSignal(u), t, m)
  {
    hide Word, Registered, SetThread, SetFiber, Snapped;
    SnapFields(s, t, m);
    var th := s.thr[u];
    var i := s.fiberOf[th.hold.task];
    if s.fib[i].status == WantsSuspend {
      SnapBoth(s, u, After(th), i, s.fib[i].(status := SuspendSignaled, tok := Signalled), t, m);
    } else {
      SnapSet(s, u, th.(pc := ResumeLoad), s.occ, t, m);
    }
  }

  lemma BlindRequeue(s: State, u: nat, x: Waiter, t: nat, m: map<nat, nat>)
    requires t in s.thr && ThreadEnabled(s, Requeue(u, x))
    ensures Blind(s, Requeue(u, x), t, m)
  {
    SnapSet(s, u, s.thr[u].(out := s.thr[u].out - multiset{x}), s.occ, t, m);
  }

  lemma BlindBatch(s: State, u: nat, t: nat, m: map<nat, nat>)
    requires t in s.thr && ThreadEnabled(s, NextBatch(u))
    ensures Blind(s, NextBatch(u), t, m)
  {
    hide Word, Registered, SetThread, Snapped;
    SnapFields(s, t, m);
    var th := s.thr[u];
    SnapSet(s, u, if th.pc.last then FinalBatch(th) else After(th), s.occ, t, m);
  }

  lemma ThreadBlind(s: State, st: Step, t: nat, m: map<nat, nat>)
    requires t in s.thr && ThreadEnabled(s, st) && (st.Begin? ==> st.t != t)
    ensures Blind(s, st, t, m)
  {
    hide Blind, ThreadApply, Snapped;
    if st.Begin? { BlindBegin(s, st, t, m); }
    else if st.LoadWord? { BlindLoad(s, st.t, t, m); }
    else if st.ExchangeWord? { BlindExchange(s, st.t, t, m); }
    else if st.ClaimBit? || st.NextWord? { BlindClaim(s, st, t, m); }
    else if st.TakeSlot? || st.TakeCell? { BlindTake(s, st, t, m); }
    else if st.MarkCancelled? { BlindMark(s, st.t, t, m); }
    else if st.LoadStatus? { BlindStatus(s, st.t, t, m); }
    else if st.CasReady? { BlindReady(s, st.t, t, m); }
    else if st.CasSignal? { BlindSignal(s, st.t, t, m); }
    else if st.Requeue? { BlindRequeue(s, st.t, st.x, t, m); }
    else { BlindBatch(s, st.t, t, m); }
  }

  lemma FiberBlind(s: State, st: Step, t: nat, m: map<nat, nat>)
    requires t in s.thr && FiberEnabled(s, st)
    ensures FiberEnabled(Snapped(s, t, m), st) && t in FiberApply(s, st).thr
    ensures FiberApply(Snapped(s, t, m), st) == Snapped(FiberApply(s, st), t, m)
  {
    hide FiberApply, FiberEnabled;
    var x := s.thr[t := s.thr[t].(snap := m)];
    CallFiber(s, st);
    if st.Reserve? || st.CheckOut? || st.CheckIn? || st.Mark? || st.Store? || st.SelfTake? { FiberSnapWait(s, st, x); }
    else { FiberSnapCalm(s, st, x); }
  }

  lemma WorkerBlind(s: State, st: Step, t: nat, m: map<nat, nat>)
    requires t in s.thr && WorkerEnabled(s, st)
    ensures WorkerEnabled(Snapped(s, t, m), st) && t in WorkerApply(s, st).thr
    ensures WorkerApply(Snapped(s, t, m), st) == Snapped(WorkerApply(s, st), t, m)
  {
    hide WorkerApply, WorkerEnabled;
    var x := s.thr[t := s.thr[t].(snap := m)];
    CallWorker(s, st);
    if st.Inspect? || st.Park? || st.Push? { WorkerSnapPark(s, st, x); } else { WorkerSnapOther(s, st, x); }
  }

  // Which steps are enabled as which does not depend on snapshots either.
  lemma KindSnap(s: State, st: Step, t: nat, m: map<nat, nat>)
    requires t in s.thr
    ensures FiberEnabled(Snapped(s, t, m), st) ==> FiberEnabled(s, st)
    ensures WorkerEnabled(Snapped(s, t, m), st) ==> WorkerEnabled(s, st)
  {
  }

  lemma StepBlind(s: State, st: Step, t: nat, m: map<nat, nat>)
    requires t in s.thr && Enabled(s, st) && (st.Begin? ==> st.t != t)
    ensures Enabled(Snapped(s, t, m), st) && t in Apply(s, st).thr
    ensures Apply(Snapped(s, t, m), st) == Snapped(Apply(s, st), t, m)
  {
    hide FiberApply, WorkerApply, ThreadApply, FiberEnabled, WorkerEnabled, ThreadEnabled, Snapped;
    KindSnap(s, st, t, m);
    if FiberEnabled(s, st) { FiberBlind(s, st, t, m); }
    else if WorkerEnabled(s, st) { WorkerBlind(s, st, t, m); }
    else { ThreadBlind(s, st, t, m); }
  }

  lemma {:induction false} RunBlind(s: State, steps: seq<Step>, s': State, t: nat, m: map<nat, nat>)
    requires Run(s, steps, s') && t in s.thr && SameCall(t, steps)
    ensures t in s'.thr && Run(Snapped(s, t, m), steps, Snapped(s', t, m))
    decreases |steps|
  {
    hide Enabled, Apply, Snapped;
    if steps != [] {
      StepBlind(s, steps[0], t, m);
      RunBlind(Apply(s, steps[0]), steps[1..], s', t, m);
    }
  }

  // ---- every waiter registered before its word is loaded ---------------------------------------------------

  lemma CoreSnapped(s: State, t: nat, m: map<nat, nat>)
    requires Core(s) && t in s.thr
    ensures Core(Snapped(s, t, m))
  {
    hide Hosting, Queueing, Binding, Placing, Waking, Logging;
    HandsUpdate(s.thr, t, s.thr[t].(snap := m));
    assert Hands(s.thr)[t := HandOf(s.thr[t])] == Hands(s.thr);
  }

  lemma InvSnapped(s: State, t: nat, m: map<nat, nat>)
    requires Inv(s) && t in s.thr && SnapOk(s, s.thr[t].(snap := m))
    ensures Inv(Snapped(s, t, m))
  {
    hide Core, SnapOk, Scan;
    CoreSnapped(s, t, m);
    ThreadScan(s, t);
    Restart(s, t, s.thr[t].(snap := m));
  }

  // A waiter in its slot, past its AddWaiter, with its word still to be loaded.
  lemma AheadSnap(s: State, t: nat, i: nat)
    requires Core(s) && t in s.thr && i in s.fib && Slot(s.thr[t].e, i) in s.slots && s.fib[i].pc != Stored && Ahead(s.thr[t], i)
    ensures SnapOk(s, s.thr[t].(snap := map[i := s.slots[Slot(s.thr[t].e, i)].ticket]))
  {
    hide Core;
    SlotPlace(s, Slot(s.thr[t].e, i));
    CurrentRec(s, i);
  }

  /** A waiter whose AddWaiter has returned and who is in its slot while SignalAll, CancelWaiters or a
      SignalOne that will find nobody has still to load its word has, when that call returns, been
      taken, or is in the slot and claimed by another remover (or its own SelfRemove) that is still
      bound to exchange it. */
  lemma RegisteredBeforeIsTaken(s0: State, before: seq<Step>, s: State, t: nat, during: seq<Step>, s': State, i: nat)
    requires Init(s0) && Run(s0, before, s) && t in s.thr && Run(s, during, s') && SameCall(t, during)
    requires i in s.fib && Slot(s.thr[t].e, i) in s.slots && s.fib[i].pc != Stored && Ahead(s.thr[t], i)
    ensures t in s'.thr && i in s'.fib && s.slots[Slot(s.thr[t].e, i)].ticket < |s'.hist|
    ensures Swept(s'.thr[t]) ==> Settled(s', t, Slot(s.thr[t].e, i), s.slots[Slot(s.thr[t].e, i)].ticket)
  {
    hide Init, Core, Scan, Firm, Settled, Run, SnapOk, SameCall;
    var e, k := s.thr[t].e, s.slots[Slot(s.thr[t].e, i)].ticket;
    var m := map[i := k];
    Reached(s0, before, s);
    AheadSnap(s, t, i);
    InvSnapped(s, t, m);
    RunBlind(s, during, s', t, m);
    var x' := Snapped(s', t, m);
    InvRun(Snapped(s, t, m), during, x');
    CallRun(s, during, s', t);
    SnapFiber(x', t, i);
    if Swept(s'.thr[t]) {
      SweptSnap(x', t, i);
      SettledSnap(s', t, m, i, k);
    }
  }

  /** In particular the waiters registered when the call began. */
  lemma RegisteredBeforeCall(s0: State, before: seq<Step>, s: State, t: nat, op: Op, e: nat, during: seq<Step>, s': State, i: nat)
    requires Init(s0) && Run(s0, before, s)
    requires Enabled(s, Begin(t, op, e)) && Run(Apply(s, Begin(t, op, e)), during, s') && SameCall(t, during)
    requires i in s.fib && Slot(e, i) in s.slots && s.fib[i].pc != Stored
    ensures t in s'.thr && i in s'.fib && s.slots[Slot(e, i)].ticket < |s'.hist|
    ensures Swept(s'.thr[t]) ==> Settled(s', t, Slot(e, i), s.slots[Slot(e, i)].ticket)
  {
    hide Init, Core, Scan, Firm, Settled, Run, SameCall, Registered;
    Reached(s0, before, s);
    SlotPlace(s, Slot(e, i));
    var s1 := Apply(s, Begin(t, op, e));
    RunSnoc(s0, before, s, Begin(t, op, e), s1);
    assert s1.thr[t].e == e && Ahead(s1.thr[t], i);
    RegisteredBeforeIsTaken(s0, before + [Begin(t, op, e)], s1, t, during, s', i);
  }

  lemma SettledSnap(s: State, t: nat, m: map<nat, nat>, i: nat, k: nat)
    requires t in s.thr && i in s.fib && k < |s.hist| && Settled(Snapped(s, t, m), t, Slot(s.thr[t].e, i), k)
    ensures Settled(s, t, Slot(s.thr[t].e, i), k)
  {
    var x, p := Snapped(s, t, m), Slot(s.thr[t].e, i);
    if u: nat :| u in x.thr && u != t && Claims(x.thr[u], p) {
      assert Claims(s.thr[u], p);
    }
  }

  // ---- a waiter who registers in a word already loaded --------------------------------------------------------

  lemma {:induction false} RunSnoc(s0: State, a: seq<Step>, s: State, st: Step, s': State)
    requires Run(s0, a, s) && Enabled(s, st) && s' == Apply(s, st)
    ensures Run(s0, a + [st], s')
    decreases |a|
  {
    hide Enabled, Apply;
    if a == [] {
      assert [st][1..] == [];
      assert Run(s', [], s');
    } else {
      RunSnoc(Apply(s0, a[0]), a[1..], s, st, s');
      assert (a + [st])[1..] == a[1..] + [st];
    }
  }

  // The state after the fiber on worker w has registered at place p.
  function RegisteredAt(s: State, w: nat, p: Place): (s': State)
    requires OnCpu(s, w)
  {
    var i, k := s.wrk[w].f, |s.hist|;
    var f := s.fib[i].(status := WantsSuspend, pc := Listed, place := p, ticket := k, tok := InSlot);
    s.(fib := s.fib[i := f], slots := s.slots[p := Waiter(f.task, k)], occ := s.occ + {p}, hist := s.hist + [Rec(i, p, 1, 0, 0, 0)])
  }

  lemma Registers(s0: State, a: seq<Step>, s: State, w: nat, p: Place)
    requires Run(s0, a, s) && OnCpu(s, w) && Cur(s, w).pc == Body && p.Slot? && p.i == s.wrk[w].f && p.e in s.built
    ensures Run(s0, a + [Mark(w, p)] + [Store(w)] + [SetBit(w)], RegisteredAt(s, w, p))
  {
    hide Run, Apply, Enabled, WorkerApply, ThreadApply;
    var i, k := s.wrk[w].f, |s.hist|;
    var f1 := s.fib[i].(status := WantsSuspend, pc := Marked, place := p, ticket := k, tok := Pending);
    var s1 := SetFiber(s, i, f1).(hist := s.hist + [Rec(i, p, 0, 0, 0, 0)]);
    FiberRun(s0, a, s, Mark(w, p), s1);
    var f2 := f1.(pc := Stored, tok := InSlot);
    var s2 := SetFiber(s, i, f2).(slots := s.slots[p := Waiter(f2.task, k)], hist := s.hist + [Rec(i, p, 1, 0, 0, 0)]);
    assert s1.fib[i := f2] == s.fib[i := f2] && s1.hist[k := s1.hist[k].(stored := 1)] == s2.hist;
    FiberRun(s0, a + [Mark(w, p)], s1, Store(w), s2);
    assert s2.fib[i := f2.(pc := Listed)] == s.fib[i := f2.(pc := Listed)];
    FiberRun(s0, a + [Mark(w, p)] + [Store(w)], s2, SetBit(w), RegisteredAt(s, w, p));
  }

  lemma FiberRun(s0: State, a: seq<Step>, s: State, st: Step, s': State)
    requires Run(s0, a, s) && FiberEnabled(s, st) && s' == FiberApply(s, st)
    ensures Run(s0, a + [st], s')
  {
    hide Run, FiberApply;
    RunSnoc(s0, a, s, st, s');
  }

  lemma WorkerRun(s0: State, a: seq<Step>, s: State, st: Step, s': State)
    requires Run(s0, a, s) && WorkerEnabled(s, st) && s' == WorkerApply(s, st)
    ensures Run(s0, a + [st], s')
  {
    hide Run, WorkerApply;
    RunSnoc(s0, a, s, st, s');
  }

  lemma ThreadRun(s0: State, a: seq<Step>, s: State, st: Step, s': State)
    requires Run(s0, a, s) && ThreadEnabled(s, st) && s' == ThreadApply(s, st)
    ensures Run(s0, a + [st], s')
  {
    hide Run, ThreadApply;
    RunSnoc(s0, a, s, st, s');
  }

  // The first word the scan has still to load.
  function Bound(th: Thread): (w: nat) { if th.pc == Load then th.w else th.w + 1 }

  // SignalOne is at a word boundary: about to load a word, or with no bit of its word left.
  predicate Between(th: Thread) { th.op.One? && (th.pc == Load || (th.pc == Loop && th.bits == {})) }

  // No bit is set in the words it has still to load.
  ghost predicate NothingLater(s: State, th: Thread) {
    forall j: nat :: j < s.count && j / 64 >= Bound(th) ==> Slot(th.e, j) !in s.occ
  }

  // An empty word: load it, find no bit, go on to the next.
  lemma PassesWord(s0: State, a: seq<Step>, s: State, t: nat)
    requires Run(s0, a, s) && t in s.thr && s.thr[t].op.One? && s.thr[t].pc == Load && NothingLater(s, s.thr[t])
    requires s.count > 64 * s.thr[t].w
    ensures Run(s0, a + [LoadWord(t)] + [NextWord(t)], SetThread(s, t, s.thr[t].(bits := {}, w := s.thr[t].w + 1, pc := Load)))
  {
    hide Run, NothingLater;
    var th := s.thr[t];
    EmptyWord(s, th);
    hide Word;
    var th1, th2 := th.(bits := {}, pc := Loop), th.(bits := {}, w := th.w + 1, pc := Load);
    var s1 := SetThread(s, t, th1);
    StepsTo(s0, a, s, t, LoadWord(t), th1);
    StepsTo(s0, a + [LoadWord(t)], s1, t, NextWord(t), th2);
    assert s1.thr[t := th2] == s.thr[t := th2];
  }

  // Then it loads the remaining words, finds them empty and returns.
  lemma {:induction false} Returns(s0: State, a: seq<Step>, s: State, t: nat) returns (a': seq<Step>, s': State)
    requires Run(s0, a, s) && t in s.thr && s.thr[t].op.One? && s.thr[t].pc == Load && NothingLater(s, s.thr[t])
    ensures Run(s0, a', s')
    ensures t in s'.thr && s' == s.(thr := s.thr[t := s'.thr[t]]) && s'.thr[t].op.One? && s'.thr[t].pc == Done(false)
    decreases s.count - 64 * s.thr[t].w
  {
    hide Run, Apply, Enabled, FiberApply, WorkerApply, ThreadApply, Word;
    var th := s.thr[t];
    if s.count <= 64 * th.w {
      StepsTo(s0, a, s, t, LoadWord(t), th.(pc := Done(false)));
      a', s' := a + [LoadWord(t)], SetThread(s, t, th.(pc := Done(false)));
    } else {
      PassesWord(s0, a, s, t);
      var s1 := SetThread(s, t, th.(bits := {}, w := th.w + 1, pc := Load));
      a', s' := Returns(s0, a + [LoadWord(t)] + [NextWord(t)], s1, t);
      assert s'.thr == s.thr[t := s'.thr[t]];
    }
  }

  lemma ReturnsBetween(s0: State, a: seq<Step>, s: State, t: nat) returns (a': seq<Step>, s': State)
    requires Run(s0, a, s) && t in s.thr && Between(s.thr[t]) && NothingLater(s, s.thr[t])
    ensures Run(s0, a', s')
    ensures t in s'.thr && s' == s.(thr := s.thr[t := s'.thr[t]]) && s'.thr[t].op.One? && s'.thr[t].pc == Done(false)
  {
    hide Run, Apply, Enabled, FiberApply, WorkerApply, ThreadApply, Word;
    var th := s.thr[t];
    if th.pc == Load {
      a', s' := Returns(s0, a, s, t);
    } else {
      var s1 := SetThread(s, t, th.(w := th.w + 1, pc := Load));
      StepsTo(s0, a, s, t, NextWord(t), s1.thr[t]);
      a', s' := Returns(s0, a + [NextWord(t)], s1, t);
      assert s'.thr == s.thr[t := s'.thr[t]];
    }
  }

  lemma EmptyWord(s: State, th: Thread)
    requires th.pc == Load && NothingLater(s, th)
    ensures Word(s, th.e, th.w) == {}
  {
  }

  lemma StepsTo(s0: State, a: seq<Step>, s: State, t: nat, st: Step, th': Thread)
    requires Run(s0, a, s) && t in s.thr && Between(s.thr[t])
    requires st == if s.thr[t].pc == Loop then NextWord(t) else LoadWord(t)
    requires var th := s.thr[t];
             th' == if th.pc == Loop then th.(w := th.w + 1, pc := Load)
                    else if s.count <= 64 * th.w then th.(pc := Done(false))
                    else th.(bits := Word(s, th.e, th.w), pc := Loop)
    ensures Run(s0, a + [st], SetThread(s, t, th'))
  {
    hide Run, Word;
    ThreadRun(s0, a, s, st, SetThread(s, t, th'));
  }

  /** From every state in which SignalOne is at a word boundary with no bit set further on, and a fiber is
      running whose word it has passed, that fiber can register and SignalOne then answer that nobody
      waits, with the waiter in its slot and its bit set. */
  lemma LateWaiterIsMissed(s: State, t: nat, w: nat) returns (a: seq<Step>, s': State)
    requires t in s.thr && Between(s.thr[t]) && NothingLater(s, s.thr[t])
    requires OnCpu(s, w) && Cur(s, w).pc == Body && s.thr[t].e in s.built && !Ahead(s.thr[t], s.wrk[w].f)
    ensures Run(s, a, s') && s'.thr.Keys == s.thr.Keys && s'.thr[t].op.One? && s'.thr[t].pc == Done(false)
    ensures var i := s.wrk[w].f;
            var p := Slot(s.thr[t].e, i);
            && p in s'.slots && p in s'.occ && i in s'.fib && s'.fib[i].pc == Listed && s'.slots[p].ticket == |s.hist|
  {
    assert Run(s, [], s);
    hide Run, Apply, Enabled, FiberApply, WorkerApply, ThreadApply;
    var p := Slot(s.thr[t].e, s.wrk[w].f);
    Registers(s, [], s, w, p);
    a, s' := ReturnsBetween(s, [] + [Mark(w, p)] + [Store(w)] + [SetBit(w)], RegisteredAt(s, w, p), t);
  }

  // Such a state is reached with one fiber, one worker and one caller, and then nobody is bound to take
  // the waiter.
  lemma SignalOneCanMiss() returns (s0: State, a: seq<Step>, s: State)
    ensures Init(s0) && Run(s0, a, s) && 0 in s.thr && s.thr[0].op.One? && s.thr[0].pc == Done(false)
    ensures Slot(0, 0) in s.slots && Slot(0, 0) in s.occ && 0 in s.fib && s.fib[0].pc == Listed
    ensures forall t :: t in s.thr ==> !Claims(s.thr[t], Slot(0, 0))
  {
    hide Init, Run;
    s0 := OneOfEach();
    var a1, s1 := StartsFiber(s0);
    var a2, s2 := LooksOnce(s0, a1, s1);
    var a3, s3 := LateWaiterIsMissed(s2, 0, 0);
    RunConcat(s0, a2, s2, a3, s3);
    a, s := a2 + a3, s3;
  }

  function OneOfEach(): (s: State)
    ensures Init(s) && s.count == 1 && s.occ == {} && s.thr.Keys == {0} && s.thr[0].pc.Rest?
    ensures 0 in s.wrk && s.wrk[0].Idle? && 0 in s.pool && 0 in s.fib && 7 !in s.fiberOf
  {
    var f := Fiber(Ready, Off, 0, Slot(0, 0), 0, NoToken, InPool);
    var th := Thread(All, Rest, 0, 0, {}, Waiter(0, 0), multiset{}, multiset{}, multiset{}, map[], 0);
    var s := State(1, map[], {}, {}, map[], map[0 := f], map[0 := Idle], map[0 := th], {0}, multiset{}, map[], {}, {}, []);
    assert s.pool == s.fib.Keys;
    s
  }

  lemma {:induction false} RunConcat(s: State, a: seq<Step>, s1: State, b: seq<Step>, s2: State)
    requires Run(s, a, s1) && Run(s1, b, s2)
    ensures Run(s, a + b, s2)
    decreases |a|
  {
    hide Enabled, Apply;
    if a == [] {
      assert a + b == b;
    } else {
      RunConcat(Apply(s, a[0]), a[1..], s1, b, s2);
      assert (a + b)[1..] == a[1..] + b;
    }
  }

  // Fiber 0 is switched in on worker 0 and reserves the table of event 0.
  lemma StartsFiber(s0: State) returns (a: seq<Step>, s: State)
    requires 0 in s0.wrk && s0.wrk[0].Idle? && 0 in s0.pool && 0 in s0.fib && 7 !in s0.fiberOf
    ensures Run(s0, a, s) && OnCpu(s, 0) && s.wrk[0].f == 0 && Cur(s, 0).pc == Body && 0 in s.built
    ensures s.count == s0.count && s.occ == s0.occ && s.thr == s0.thr
  {
    assert Run(s0, [], s0);
    hide Run, Apply, Enabled, ThreadApply;
    var s1 := WorkerApply(s0, Acquire(0, 0, 7));
    WorkerRun(s0, [], s0, Acquire(0, 0, 7), s1);
    var s2 := WorkerApply(s1, SwitchIn(0));
    WorkerRun(s0, [] + [Acquire(0, 0, 7)], s1, SwitchIn(0), s2);
    s := s2.(built := s2.built + {0});
    FiberRun(s0, [] + [Acquire(0, 0, 7)] + [SwitchIn(0)], s2, Reserve(0, 0), s);
    a := [] + [Acquire(0, 0, 7)] + [SwitchIn(0)] + [Reserve(0, 0)];
  }

  // Caller 0 enters SignalOne on event 0 and loads the one word, which is empty.
  lemma LooksOnce(s0: State, a: seq<Step>, s: State) returns (a': seq<Step>, s': State)
    requires Run(s0, a, s) && s.count == 1 && s.occ == {} && 0 in s.built && 0 in s.thr && s.thr[0].pc.Rest?
    ensures Run(s0, a', s') && 0 in s'.thr && s' == s.(thr := s.thr[0 := s'.thr[0]])
    ensures s'.thr[0].op.One? && s'.thr[0].pc == Loop && s'.thr[0].bits == {} && s'.thr[0].w == 0 && s'.thr[0].e == 0
  {
    hide Run, Apply, Enabled, FiberApply, WorkerApply, Registered;
    var s1 := ThreadApply(s, Begin(0, One, 0));
    ThreadRun(s0, a, s, Begin(0, One, 0), s1);
    assert Word(s1, 0, 0) == {};
    s' := SetThread(s1, 0, s1.thr[0].(bits := {}, pc := Loop));
    ThreadRun(s0, a + [Begin(0, One, 0)], s1, LoadWord(0), s');
    a' := a + [Begin(0, One, 0)] + [LoadWord(0)];
    assert s'.thr == s.thr[0 := s'.thr[0]];
  }
}
