/**
 No waiter is lost by the bitmap: a filled slot is always advertised, or about to be, or claimed by
 a remover that still owes its exchange; hence a scan that began after a waiter registered leaves it
 taken or claimed.
 */
module EventWakeScan {
  import opened EventWake
  import opened EventWakeSafety

  // The thread has removed p's bit and has still to exchange p's slot.
  ghost predicate Claims(th: Thread, p: Place)
  {
    p.Slot? && p.e == th.e && (th.pc == Claimed(p.i) || (th.op.All? && p.i in th.bits))
  }

  // Its own AddWaiter is between its two stores, or its own SelfRemove between its two.
  ghost predicate Halfway(s: State, i: nat) { i in s.fib && s.fib[i].pc in {Stored, Unlisted} }

  ghost predicate Guarded(s: State, p: Place)
    requires p.Slot?
  {
    p in s.occ || Halfway(s, p.i) || exists t :: t in s.thr && Claims(s.thr[t], p)
  }

  ghost predicate NoLost(s: State) { forall p :: p in s.slots && p.Slot? ==> Guarded(s, p) }

  // The rest of word w, and all later words, are still to be looked at.
  ghost predicate Unscanned(th: Thread, i: nat)
  {
    th.op.Single? ||
    match th.pc
    case Load => i / 64 >= th.w
    case Exchange => i / 64 >= th.w
    case Flush(last) => !last && (i / 64 > th.w || (!th.op.All? && i in th.bits))
    case Done(woke) => th.op.One? && woke
    case SignalCell => true
    case Rest => true
    case _ => i / 64 > th.w || (!th.op.All? && i in th.bits)
  }

  ghost predicate SnapOk(s: State, th: Thread)
  {
    forall i :: i in th.snap ==>
      && i in s.fib
      && th.snap[i] < |s.hist| && s.hist[th.snap[i]].stored >= 1
      && s.hist[th.snap[i]].fiber == i && s.hist[th.snap[i]].place == Slot(th.e, i)
      && (Slot(th.e, i) in s.slots && s.slots[Slot(th.e, i)].ticket == th.snap[i] ==>
            s.fib[i].pc != Stored && (Slot(th.e, i) !in s.occ || Unscanned(th, i)))
  }

  // Nothing is left in `bits` where a fresh word is about to be read or the call is over.
  ghost predicate BitsOk(th: Thread)
  {
    && (th.op.All? && th.pc in {Load, Exchange, Flush(true), Done(true), Done(false), Rest} ==> th.bits == {})
    && (th.pc == Exchange ==> th.op.All?)
  }

  ghost predicate Scans(s: State)
  {
    && (forall i :: i in s.fib ==> i < s.count)
    && (forall t :: t in s.thr ==> BitsOk(s.thr[t]) && SnapOk(s, s.thr[t]))
  }

  // ---- the two invariants, kept by any change that respects them ----------------------------------

  lemma NoLostKeep(s: State, s': State)
    requires NoLost(s)
    requires forall p :: p in s'.slots && p.Slot? && p !in s.slots ==> Guarded(s', p)
    requires forall p :: p in s'.slots && p in s.slots && p.Slot? && p in s.occ ==> Guarded(s', p)
    requires forall p :: p in s'.slots && p in s.slots && p.Slot? && Halfway(s, p.i) ==> Guarded(s', p)
    requires forall t, p :: t in s.thr && p in s'.slots && p in s.slots && p.Slot? && Claims(s.thr[t], p) ==> Guarded(s', p)
    ensures NoLost(s')
  {
    forall p | p in s'.slots && p.Slot? ensures Guarded(s', p) {
      if p in s.slots { assert Guarded(s, p); }
    }
  }

  ghost predicate HistGrows(h: seq<Rec>, h': seq<Rec>)
  {
    |h| <= |h'| && forall k :: 0 <= k < |h| ==> h'[k].fiber == h[k].fiber && h'[k].place == h[k].place && h'[k].stored >= h[k].stored
  }

  // Fiber i may publish itself, with a ticket nobody has seen; nobody else's record changes its mind.
  lemma SnapKeep(s: State, s': State, th: Thread)
    requires SnapOk(s, th) && HistGrows(s.hist, s'.hist)
    requires forall i :: i in s.fib ==> i in s'.fib
    requires forall p, k :: p in s'.slots && s'.slots[p].ticket == k && k < |s.hist| && s.hist[k].stored >= 1 ==>
               p in s.slots && s.slots[p].ticket == k
    requires forall i, e :: i in s.fib && Slot(e, i) in s'.slots && Slot(e, i) in s.slots && s.fib[i].pc != Stored ==>
               s'.fib[i].pc != Stored && (Slot(e, i) in s'.occ ==> Slot(e, i) in s.occ)
    ensures SnapOk(s', th)
  {
  }

  // ---- facts about the table ---------------------------------------------------------------------

  lemma SlotPlace(s: State, p: Place)
    requires Core(s) && p in s.slots && p.Slot?
    ensures p.i in s.fib && s.fib[p.i].place == p && s.fib[p.i].tok == InSlot && s.slots[p] == Me(s.fib[p.i])
    ensures p.e in s.built
  {
    hide Hosting, Queueing, Binding, Logging, Tidy;
    assert Names(s.fib, s.fiberOf, s.slots[p], InSlot);
  }

  ghost predicate Scan(s: State) { NoLost(s) && Scans(s) }

  ghost predicate Critical(pc: FiberPc) { pc == Stored || pc == Unlisted }

  ghost predicate CalmFibers(s: State, s': State)
  {
    s'.fib.Keys == s.fib.Keys && forall i :: i in s.fib ==> s'.fib[i].pc == s.fib[i].pc || (!Critical(s'.fib[i].pc) && !Critical(s.fib[i].pc))
  }

  ghost predicate FewerSlots(s: State, s': State)
  {
    forall p :: p in s'.slots ==> p in s.slots && s'.slots[p] == s.slots[p]
  }

  // Threads stay; no filled slot becomes unguarded, and no waiter a scan has counted on changes.
  lemma Respect(s: State, s': State)
    requires Scan(s) && s'.thr == s.thr && s'.count == s.count && s'.fib.Keys == s.fib.Keys && HistGrows(s.hist, s'.hist)
    requires forall p :: p in s'.slots && p.Slot? && p !in s.slots ==> Guarded(s', p)
    requires forall p :: p in s'.slots && p in s.slots && p.Slot? && (p in s.occ || Halfway(s, p.i)) ==> Guarded(s', p)
    requires forall p, k :: p in s'.slots && s'.slots[p].ticket == k && k < |s.hist| && s.hist[k].stored >= 1 ==>
               p in s.slots && s.slots[p].ticket == k
    requires forall i, e :: i in s.fib && Slot(e, i) in s'.slots && Slot(e, i) in s.slots && s.fib[i].pc != Stored ==>
               s'.fib[i].pc != Stored && (Slot(e, i) in s'.occ ==> Slot(e, i) in s.occ)
    ensures Scan(s')
  {
    NoLostKeep(s, s');
    forall t | t in s.thr ensures SnapOk(s', s.thr[t]) {
      SnapKeep(s, s', s.thr[t]);
    }
  }

  // Threads and bitmap stay, slots may empty, no fiber enters or leaves a critical point.
  lemma Calm(s: State, s': State)
    requires Scan(s) && s'.thr == s.thr && s'.occ == s.occ && s'.count == s.count
    requires CalmFibers(s, s') && FewerSlots(s, s') && HistGrows(s.hist, s'.hist)
    ensures Scan(s')
  {
    hide Scan;
    Respect(s, s');
  }

  // ---- the steps of the code on a fiber -----------------------------------------------------------

  lemma ScanStore(s: State, w: nat)
    requires Core(s) && Scan(s) && FiberEnabled(s, Store(w))
    ensures Scan(FiberApply(s, Store(w)))
  {
    hide Core, Scan;
    Hosted(s, w);
    var i := s.wrk[w].f;
    FreePlace(s, i);
    CurrentRec(s, i);
    if s.fib[i].place.Slot? { PlaceIsOwn(s, i); }
    var s' := FiberApply(s, Store(w));
    forall e | Slot(e, i) in s.slots ensures false { SlotPlace(s, Slot(e, i)); }
    Respect(s, s');
  }

  lemma ScanSetBit(s: State, w: nat)
    requires Core(s) && Scan(s) && FiberEnabled(s, SetBit(w))
    ensures Scan(FiberApply(s, SetBit(w)))
  {
    hide Core, Scan;
    Hosted(s, w);
    var i := s.wrk[w].f;
    PlaceIsOwn(s, i);
    var s' := FiberApply(s, SetBit(w));
    forall e | Slot(e, i) in s.slots ensures s.fib[i].place == Slot(e, i) { SlotPlace(s, Slot(e, i)); }
    Respect(s, s');
  }

  lemma ScanUnlist(s: State, w: nat)
    requires Core(s) && Scan(s) && FiberEnabled(s, Unlist(w))
    ensures Scan(FiberApply(s, Unlist(w)))
  {
    hide Core, Scan;
    Hosted(s, w);
    var i := s.wrk[w].f;
    PlaceIsOwn(s, i);
    var s' := FiberApply(s, Unlist(w));
    Respect(s, s');
  }

  lemma PlaceIsOwn(s: State, i: nat)
    requires Core(s) && i in s.fib && s.fib[i].tok != NoToken && s.fib[i].place.Slot?
    ensures s.fib[i].place.i == i && s.fib[i].place.e in s.built
  {
    hide Hosting, Queueing, Binding, Waking, Logging, Tidy;
  }

  lemma ScanSelfTake(s: State, w: nat)
    requires Core(s) && Scan(s) && FiberEnabled(s, SelfTake(w))
    ensures Scan(FiberApply(s, SelfTake(w)))
  {
    hide Core, Scan;
    Hosted(s, w);
    var i := s.wrk[w].f;
    var s' := FiberApply(s, SelfTake(w));
    forall e | Slot(e, i) in s.slots ensures s.fib[i].place == Slot(e, i) { SlotPlace(s, Slot(e, i)); }
    Respect(s, s');
  }

  lemma ScanCalmFiber(s: State, st: Step)
    requires Scan(s) && FiberEnabled(s, st) && !st.Store? && !st.SetBit? && !st.Unlist? && !st.SelfTake?
    ensures Scan(FiberApply(s, st))
  {
    hide Scan;
    var s' := FiberApply(s, st);
    if st.Reserve? || st.CheckIn? || st.CheckOut? || st.Mark? { ScanCalmWait(s, st); }
    else if st.KeepRunning? { Calm(s, s'); }
    else if st.MarkYield? || st.MarkDead? { Calm(s, s'); }
    else { Calm(s, s'); }
  }

  lemma ScanCalmWait(s: State, st: Step)
    requires Scan(s) && FiberEnabled(s, st) && (st.Reserve? || st.CheckIn? || st.CheckOut? || st.Mark?)
    ensures Scan(FiberApply(s, st))
  {
    hide Scan;
    var s' := FiberApply(s, st);
    if st.Reserve? || st.CheckIn? { Calm(s, s'); }
    else if st.CheckOut? { Calm(s, s'); }
    else { Calm(s, s'); }
  }

  lemma ScanFiber(s: State, st: Step)
    requires Core(s) && Scan(s) && FiberEnabled(s, st)
    ensures Scan(FiberApply(s, st))
  {
    hide Core, Scan, FiberApply;
    if st.Store? { ScanStore(s, st.w); }
    else if st.SetBit? { ScanSetBit(s, st.w); }
    else if st.Unlist? { ScanUnlist(s, st.w); }
    else if st.SelfTake? { ScanSelfTake(s, st.w); }
    else { ScanCalmFiber(s, st); }
  }

  lemma ScanPick(s: State, st: Step)
    requires Core(s) && Scan(s) && WorkerEnabled(s, st) && (st.Acquire? || st.Pick?)
    ensures Scan(WorkerApply(s, st))
  {
    hide Core, Scan;
    Calm(s, WorkerApply(s, st));
  }

  lemma ScanInspect(s: State, st: Step)
    requires Core(s) && Scan(s) && WorkerEnabled(s, st) && st.Inspect?
    ensures Scan(WorkerApply(s, st))
  {
    hide Core, Scan;
    Hosted(s, st.w);
    Calm(s, WorkerApply(s, st));
  }

  lemma ScanPark(s: State, st: Step)
    requires Core(s) && Scan(s) && WorkerEnabled(s, st) && st.Park?
    ensures Scan(WorkerApply(s, st))
  {
    hide Core, Scan;
    Hosted(s, st.w);
    Calm(s, WorkerApply(s, st));
  }

  lemma ScanProceed(s: State, st: Step)
    requires Core(s) && Scan(s) && WorkerEnabled(s, st) && (st.SwitchIn? || st.YieldReady? || st.WakeReady? || st.Push?)
    ensures Scan(WorkerApply(s, st))
  {
    hide Core, Scan;
    Hosted(s, st.w);
    Calm(s, WorkerApply(s, st));
  }

  lemma ScanWorker(s: State, st: Step)
    requires Core(s) && Scan(s) && WorkerEnabled(s, st)
    ensures Scan(WorkerApply(s, st))
  {
    hide Core, Scan, WorkerApply;
    if st.Acquire? || st.Pick? { ScanPick(s, st); }
    else if st.Inspect? { ScanInspect(s, st); }
    else if st.Park? { ScanPark(s, st); }
    else { ScanProceed(s, st); }
  }

  // ---- the steps of a caller thread ---------------------------------------------------------------

  // The thread moves on: it drops no claim on a filled slot and skips no set bit.
  lemma Advance(s: State, s': State, t: nat)
    requires Scan(s) && t in s.thr && t in s'.thr && s'.thr == s.thr[t := s'.thr[t]]
    requires s'.count == s.count && s'.occ <= s.occ && CalmFibers(s, s') && FewerSlots(s, s') && HistGrows(s.hist, s'.hist)
    requires forall p :: p in s'.slots && p in s.occ && p !in s'.occ ==> Claims(s'.thr[t], p)
    requires forall p :: p in s'.slots && Claims(s.thr[t], p) ==> Claims(s'.thr[t], p)
    requires BitsOk(s'.thr[t]) && s'.thr[t].e == s.thr[t].e && s'.thr[t].snap == s.thr[t].snap && s'.thr[t].op == s.thr[t].op
    requires forall i: nat :: i < s.count && Slot(s.thr[t].e, i) in s'.occ && Unscanned(s.thr[t], i) ==> Unscanned(s'.thr[t], i)
    ensures Scan(s')
  {
    forall u, p | u in s.thr && p in s'.slots && p in s.slots && p.Slot? && Claims(s.thr[u], p) ensures Guarded(s', p) {
      assert u in s'.thr && Claims(s'.thr[u], p);
    }
    NoLostKeep(s, s');
    forall u | u in s'.thr ensures BitsOk(s'.thr[u]) && SnapOk(s', s'.thr[u]) {
      assert u != t ==> s'.thr[u] == s.thr[u];
      SnapKeep(s, s', s.thr[u]);
    }
  }

  lemma ThreadScan(s: State, t: nat)
    requires Scan(s) && t in s.thr
    ensures BitsOk(s.thr[t])
  {
  }

  // Only thread t changes.
  lemma Quiet(s: State, t: nat, th: Thread)
    requires Scan(s) && t in s.thr && BitsOk(th)
    requires th.e == s.thr[t].e && th.snap == s.thr[t].snap && th.op == s.thr[t].op
    requires forall p :: p in s.slots && Claims(s.thr[t], p) ==> Claims(th, p)
    requires forall i: nat :: i < s.count && Slot(th.e, i) in s.occ && Unscanned(s.thr[t], i) ==> Unscanned(th, i)
    ensures Scan(SetThread(s, t, th))
  {
    hide Scan;
    Advance(s, SetThread(s, t, th), t);
  }

  lemma ScanLoadWord(s: State, t: nat)
    requires Scan(s) && ThreadEnabled(s, LoadWord(t))
    ensures Scan(ThreadApply(s, LoadWord(t)))
  {
    hide Scan;
    ThreadScan(s, t);
    var th := s.thr[t];
    assert forall i: nat :: i < s.count && i / 64 == th.w && Slot(th.e, i) in s.occ ==> i in Word(s, th.e, th.w);
    if s.count <= 64 * th.w { Quiet(s, t, th.(pc := if th.op.One? then Done(false) else Flush(true))); }
    else if !th.op.All? { Quiet(s, t, th.(bits := Word(s, th.e, th.w), pc := Loop)); }
    else if Word(s, th.e, th.w) == {} { Quiet(s, t, th.(w := th.w + 1)); }
    else { Quiet(s, t, th.(pc := Exchange)); }
  }

  lemma ScanExchange(s: State, t: nat)
    requires Scan(s) && ThreadEnabled(s, ExchangeWord(t))
    ensures Scan(ThreadApply(s, ExchangeWord(t)))
  {
    hide Scan;
    ThreadScan(s, t);
    Advance(s, ThreadApply(s, ExchangeWord(t)), t);
  }

  lemma ScanClaim(s: State, t: nat, b: nat)
    requires Scan(s) && ThreadEnabled(s, ClaimBit(t, b))
    ensures Scan(ThreadApply(s, ClaimBit(t, b)))
  {
    hide Scan;
    var th := s.thr[t];
    if th.op.All? {
      Quiet(s, t, th.(bits := th.bits - {b}, pc := Claimed(b)));
    } else {
      var th' := th.(bits := th.bits - {b}, pc := if Slot(th.e, b) in s.occ then Claimed(b) else Loop);
      Advance(s, SetThread(s, t, th').(occ := s.occ - {Slot(th.e, b)}), t);
    }
  }

  lemma ScanNextWord(s: State, t: nat)
    requires Scan(s) && ThreadEnabled(s, NextWord(t))
    ensures Scan(ThreadApply(s, NextWord(t)))
  {
    hide Scan;
    Quiet(s, t, s.thr[t].(w := s.thr[t].w + 1, pc := Load));
  }

  // The exchange empties the slot; then the claim on it may go.
  lemma ScanTakeAt(s: State, t: nat, p: Place, pc: ThreadPc)
    requires Scan(s) && t in s.thr && p in s.slots && (pc == Marking || pc == ResumeLoad)
    requires if p.Slot? then s.thr[t].pc == Claimed(p.i) && s.thr[t].e == p.e else s.thr[t].op.Single? && s.thr[t].pc == SignalCell
    ensures Scan(Take(s, t, p, pc))
  {
    hide Scan;
    var s' := Take(s, t, p, pc);
    var s1 := s'.(thr := s.thr);
    Calm(s, s1);
    hide Take, FewerSlots, CalmFibers;
    Quiet(s1, t, s.thr[t].(hold := s.slots[p], pc := pc, took := s.thr[t].took + 1));
  }

  lemma ScanTake(s: State, st: Step)
    requires Core(s) && Scan(s) && ThreadEnabled(s, st) && (st.TakeSlot? || st.TakeCell?)
    ensures Scan(ThreadApply(s, st))
  {
    hide Scan, Core;
    TidyOf(s, st.t);
    var th := s.thr[st.t];
    var p := if st.TakeSlot? then Slot(th.e, th.pc.i) else Direct(th.op.d);
    if p in s.slots {
      ScanTakeAt(s, st.t, p, if st.TakeSlot? && th.op.Cancel? then Marking else ResumeLoad);
    } else {
      Quiet(s, st.t, th.(pc := if st.TakeSlot? then Loop else Done(false)));
    }
  }

  // Past the exchange, the scan stands where it stood.
  ghost predicate Past(pc: ThreadPc) { pc in {Marking, ResumeLoad, ResumeReady, ResumeSignal, Flush(false)} }

  // The wake of the waiter in hand: thread t moves on, then the fiber and the queues change.
  lemma ScanWake(s: State, s': State, t: nat)
    requires Scan(s) && t in s.thr && t in s'.thr && Past(s.thr[t].pc) && s'.thr == s.thr[t := s'.thr[t]]
    requires Past(s'.thr[t].pc) || s'.thr[t].pc == (if s.thr[t].op.All? || s.thr[t].op.Cancel? then Loop else Done(true))
    requires s'.thr[t].e == s.thr[t].e && s'.thr[t].snap == s.thr[t].snap && s'.thr[t].op == s.thr[t].op
          && s'.thr[t].bits == s.thr[t].bits && s'.thr[t].w == s.thr[t].w
    requires s'.count == s.count && s'.occ == s.occ && s'.slots == s.slots && CalmFibers(s, s') && HistGrows(s.hist, s'.hist)
    ensures Scan(s')
  {
    hide Scan;
    Quiet(s, t, s'.thr[t]);
    Calm(SetThread(s, t, s'.thr[t]), s');
  }

  lemma ScanResume(s: State, st: Step)
    requires Scan(s) && ThreadEnabled(s, st) && (st.MarkCancelled? || st.LoadStatus?)
    ensures Scan(ThreadApply(s, st))
  {
    hide Scan;
    ScanWake(s, ThreadApply(s, st), st.t);
  }

  lemma Collected(s: State, th: Thread)
    ensures var th' := Collect(s, th);
            th'.e == th.e && th'.snap == th.snap && th'.op == th.op && th'.bits == th.bits && th'.w == th.w
    ensures Collect(s, th).pc == Flush(false) || ((th.op.All? || th.op.Cancel?) && Collect(s, th).pc == Loop)
  {
  }

  lemma ScanCasReady(s: State, t: nat)
    requires Scan(s) && ThreadEnabled(s, CasReady(t))
    ensures Scan(ThreadApply(s, CasReady(t)))
  {
    hide Scan, Collect;
    Collected(s, s.thr[t]);
    var s' := ThreadApply(s, CasReady(t));
    if s.fib[s.fiberOf[s.thr[t].hold.task]].status == Suspended { ScanWake(s, s', t); } else { ScanWake(s, s', t); }
  }

  lemma ScanCasSignal(s: State, t: nat)
    requires Scan(s) && ThreadEnabled(s, CasSignal(t))
    ensures Scan(ThreadApply(s, CasSignal(t)))
  {
    hide Scan;
    ScanWake(s, ThreadApply(s, CasSignal(t)), t);
  }

  lemma ScanRequeue(s: State, t: nat, x: Waiter)
    requires Scan(s) && ThreadEnabled(s, Requeue(t, x))
    ensures Scan(ThreadApply(s, Requeue(t, x)))
  {
    hide Scan;
    ThreadScan(s, t);
    var s' := ThreadApply(s, Requeue(t, x));
    Quiet(s, t, s'.thr[t]);
    Calm(SetThread(s, t, s'.thr[t]), s');
  }

  lemma ScanNextBatch(s: State, t: nat)
    requires Core(s) && Scan(s) && ThreadEnabled(s, NextBatch(t))
    ensures Scan(ThreadApply(s, NextBatch(t)))
  {
    hide Scan, Core;
    TidyOf(s, t);
    ThreadScan(s, t);
    Quiet(s, t, if s.thr[t].pc.last then FinalBatch(s.thr[t]) else After(s.thr[t]));
  }

  // A fresh call: the thread had nothing claimed, and its snapshot is accurate.
  lemma Restart(s: State, t: nat, th: Thread)
    requires Scan(s) && t in s.thr && BitsOk(th) && SnapOk(s, th)
    requires forall p :: p in s.slots && Claims(s.thr[t], p) ==> Claims(th, p)
    ensures Scan(SetThread(s, t, th))
  {
    var s' := SetThread(s, t, th);
    forall u, p | u in s.thr && p in s.slots && p.Slot? && Claims(s.thr[u], p) ensures Guarded(s', p) {
      assert u in s'.thr && Claims(s'.thr[u], p);
    }
    NoLostKeep(s, s');
    forall u | u in s'.thr ensures BitsOk(s'.thr[u]) && SnapOk(s', s'.thr[u]) {
      SnapKeep(s, s', if u == t then th else s.thr[u]);
    }
  }

  lemma ScanBegin(s: State, t: nat, op: Op, e: nat)
    requires Core(s) && Scan(s) && ThreadEnabled(s, Begin(t, op, e))
    ensures Scan(ThreadApply(s, Begin(t, op, e)))
  {
    hide Core, Scan, Registered;
    ThreadScan(s, t);
    var th := ThreadApply(s, Begin(t, op, e)).thr[t];
    ScanSnap(s, e, op, th);
    Restart(s, t, th);
  }

  // At its beginning a scan has every registered waiter ahead of it.
  lemma ScanSnap(s: State, e: nat, op: Op, th: Thread)
    requires Core(s) && th.e == e && th.op == op && th.snap == Registered(s, e) && th.w == 0
    requires th.pc == if op.Single? then SignalCell else if e in s.built then Load else Done(false)
    ensures SnapOk(s, th)
  {
    hide Core;
    forall i | i in th.snap
      ensures i in s.fib && th.snap[i] < |s.hist| && s.hist[th.snap[i]].stored >= 1 && e in s.built
      ensures s.hist[th.snap[i]].fiber == i && s.hist[th.snap[i]].place == Slot(e, i)
    {
      SlotPlace(s, Slot(e, i));
      CurrentRec(s, i);
    }
  }

  lemma ScanThread(s: State, st: Step)
    requires Core(s) && Scan(s) && ThreadEnabled(s, st)
    ensures Scan(ThreadApply(s, st))
  {
    hide Core, Scan, ThreadApply;
    if st.Begin? { ScanBegin(s, st.t, st.op, st.e); }
    else if st.LoadWord? { ScanLoadWord(s, st.t); }
    else if st.ExchangeWord? { ScanExchange(s, st.t); }
    else if st.ClaimBit? { ScanClaim(s, st.t, st.b); }
    else if st.NextWord? { ScanNextWord(s, st.t); }
    else if st.TakeSlot? || st.TakeCell? { ScanTake(s, st); }
    else if st.MarkCancelled? || st.LoadStatus? { ScanResume(s, st); }
    else if st.CasReady? { ScanCasReady(s, st.t); }
    else if st.CasSignal? { ScanCasSignal(s, st.t); }
    else if st.Requeue? { ScanRequeue(s, st.t, st.x); }
    else { ScanNextBatch(s, st.t); }
  }
}
