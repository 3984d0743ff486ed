/**
 The Event waiter table, the DirectEvent cell and the fiber suspend/resume handshake, as one
 transition system over sequentially consistent interleavings.

 Every step is one access to shared memory by one actor: the code running on a fiber (executed by
 the worker the fiber is switched in on), a worker, or a caller thread inside SignalAll,
 SignalOne, CancelWaiters or DirectEvent::Signal.  The number of fibers, workers, caller threads,
 events and DirectEvents is arbitrary.

 The fields `ticket`, `tok`, `loc` of a fiber, the `ticket` of a waiter, the `snap` of a thread
 and the log `hist` are history: steps write them, and no guard or other effect reads them.
 */
module EventWake {

  datatype Status = Ready | Running | WantsYield | WantsSuspend | SuspendSignaled | Suspended | Dead

  // Where a waiter can be published: slot i of event e's table, or a DirectEvent.
  datatype Place = Slot(e: nat, i: nat) | Direct(d: nat)

  // The Task* a slot holds; `ticket` numbers the wait it was stored for.
  datatype Waiter = Waiter(task: nat, ticket: nat)

  // Where the one wake of the current wait stands.
  datatype Token = NoToken | Pending | InSlot | Held(t: nat) | Signalled | AtWorker | Buffered(t: nat)

  datatype Loc = InPool | InQueue | OnWorker(w: nat) | Parked

  // Program point of the code on the fiber's own stack; Off means its context is saved.
  datatype FiberPc = Off | Body | Marked | Stored | Listed | Unlisted | Leaving | Won | Yielding | Ending

  datatype Fiber = Fiber(status: Status, pc: FiberPc, task: nat, place: Place,
                         ticket: nat, tok: Token, loc: Loc)

  datatype Worker = Idle | Picked(f: nat) | Executing(f: nat) | Returned(f: nat) | Yielded(f: nat)
                  | Parking(f: nat) | Rousing(f: nat) | Pushing(f: nat, wake: bool)

  datatype Op = All | Cancel | One | Single(d: nat)

  datatype ThreadPc = Rest | Load | Exchange | Loop | Claimed(i: nat) | Marking
                    | ResumeLoad | ResumeReady | ResumeSignal | Flush(last: bool) | SignalCell
                    | Done(woke: bool)

  datatype Thread = Thread(op: Op, pc: ThreadPc, e: nat, w: nat, bits: set<nat>, hold: Waiter,
                           hi: multiset<Waiter>, lo: multiset<Waiter>, out: multiset<Waiter>,
                           snap: map<nat, nat>, took: nat)

  // Per wait: its fiber and place, and how often it was stored, taken by a caller, taken by itself, re-queued.
  datatype Rec = Rec(fiber: nat, place: Place, stored: nat, taken: nat, self: nat, pushed: nat)

  datatype State = State(
    count: nat,                  // fibers in the pool, and slots in every table
    slots: map<Place, Waiter>,   // absent means null
    occ: set<Place>,             // the occupancy bits
    built: set<nat>,             // events whose table has been allocated
    owner: map<nat, nat>,        // DirectEvents checked out of the pool, and by which fiber
    fib: map<nat, Fiber>,
    wrk: map<nat, Worker>,
    thr: map<nat, Thread>,
    pool: set<nat>,              // fibers free to be bound to a task
    ready: multiset<nat>,        // entries of the work queues
    fiberOf: map<nat, nat>,     // Task::assignedFiber
    urgent: set<nat>,            // tasks in the low-latency lane
    cancelled: set<nat>,         // tasks with cancelledDirect set
    hist: seq<Rec>)

  const BUFFER: nat := 64

  datatype Step =
    // the code on the fiber that worker w executes
    | Reserve(w: nat, e: nat) | CheckOut(w: nat, d: nat) | CheckIn(w: nat, d: nat)
    | Mark(w: nat, p: Place) | Store(w: nat) | SetBit(w: nat)
    | Unlist(w: nat) | SelfTake(w: nat) | KeepRunning(w: nat)
    | MarkYield(w: nat) | MarkDead(w: nat) | SwitchOut(w: nat)
    // worker w itself
    | Acquire(w: nat, f: nat, task: nat) | Pick(w: nat, f: nat) | SwitchIn(w: nat) | Inspect(w: nat)
    | YieldReady(w: nat) | Park(w: nat) | WakeReady(w: nat) | Push(w: nat)
    // caller thread t
    | Begin(t: nat, op: Op, e: nat) | LoadWord(t: nat) | ExchangeWord(t: nat) | ClaimBit(t: nat, b: nat)
    | NextWord(t: nat) | TakeSlot(t: nat) | MarkCancelled(t: nat) | TakeCell(t: nat)
    | LoadStatus(t: nat) | CasReady(t: nat) | CasSignal(t: nat)
    | Requeue(t: nat, x: Waiter) | NextBatch(t: nat)

  // ---- the steps of the code running on a fiber ------------------------------------------------

  predicate OnCpu(s: State, w: nat) { w in s.wrk && s.wrk[w].Executing? && s.wrk[w].f in s.fib }

  function Cur(s: State, w: nat): (f: Fiber)
    requires OnCpu(s, w)
  {
    s.fib[s.wrk[w].f]
  }

  function SetFiber(s: State, i: nat, f: Fiber): (s': State) { s.(fib := s.fib[i := f]) }

  predicate FiberEnabled(s: State, st: Step)
  {
    match st
    case Reserve(w, e) => OnCpu(s, w) && Cur(s, w).pc == Body
    case CheckOut(w, d) => OnCpu(s, w) && Cur(s, w).pc == Body && d !in s.owner
    case CheckIn(w, d) => OnCpu(s, w) && Cur(s, w).pc == Body && d in s.owner && s.owner[d] == s.wrk[w].f
    case Mark(w, p) => OnCpu(s, w) && Cur(s, w).pc == Body
      && (if p.Slot? then p.i == s.wrk[w].f && p.e in s.built else p.d in s.owner && s.owner[p.d] == s.wrk[w].f)
    case Store(w) => OnCpu(s, w) && Cur(s, w).pc == Marked
    case SetBit(w) => OnCpu(s, w) && Cur(s, w).pc == Stored
    case Unlist(w) => OnCpu(s, w) && Cur(s, w).pc == Listed && Cur(s, w).place.Slot?
    case SelfTake(w) => OnCpu(s, w) && Cur(s, w).pc == Unlisted
    case KeepRunning(w) => OnCpu(s, w) && Cur(s, w).pc == Won
    case MarkYield(w) => OnCpu(s, w) && Cur(s, w).pc == Body
    case MarkDead(w) => OnCpu(s, w) && Cur(s, w).pc == Body
    case SwitchOut(w) => OnCpu(s, w) && Cur(s, w).pc in {Listed, Leaving, Yielding, Ending}
    case _ => false
  }

  function FiberApply(s: State, st: Step): (s': State)
    requires FiberEnabled(s, st)
  {
    var i := s.wrk[st.w].f;
    var f := s.fib[i];
    match st
    case Reserve(w, e) => s.(built := s.built + {e})
    case CheckOut(w, d) => s.(owner := s.owner[d := i], slots := s.slots - {Direct(d)})
    case CheckIn(w, d) => s.(owner := s.owner - {d})
    case Mark(w, p) =>
      SetFiber(s, i, f.(status := WantsSuspend, pc := Marked, place := p, ticket := |s.hist|, tok := Pending))
      .(hist := s.hist + [Rec(i, p, 0, 0, 0, 0)])
    case Store(w) =>
      SetFiber(s, i, f.(pc := if f.place.Slot? then Stored else Listed, tok := InSlot))
      .(slots := s.slots[f.place := Waiter(f.task, f.ticket)],
        hist := if f.ticket < |s.hist| then s.hist[f.ticket := s.hist[f.ticket].(stored := s.hist[f.ticket].stored + 1)] else s.hist)
    case SetBit(w) => SetFiber(s, i, f.(pc := Listed)).(occ := s.occ + {f.place})
    case Unlist(w) => SetFiber(s, i, f.(pc := Unlisted)).(occ := s.occ - {f.place})
    case SelfTake(w) =>
      if f.place in s.slots then
        var k := s.slots[f.place].ticket;
        SetFiber(s, i, f.(pc := Won, tok := NoToken))
        .(slots := s.slots - {f.place},
          hist := if k < |s.hist| then s.hist[k := s.hist[k].(self := s.hist[k].self + 1)] else s.hist)
      else
        SetFiber(s, i, f.(pc := Leaving))
    case KeepRunning(w) => SetFiber(s, i, f.(status := Running, pc := Body))
    case MarkYield(w) => SetFiber(s, i, f.(status := WantsYield, pc := Yielding))
    case MarkDead(w) => SetFiber(s, i, f.(status := Dead, pc := Ending))
    case SwitchOut(w) => SetFiber(s, i, f.(pc := Off)).(wrk := s.wrk[w := Returned(i)])
  }

  // ---- the steps of a worker -------------------------------------------------------------------

  predicate At(s: State, w: nat) { w in s.wrk && !s.wrk[w].Idle? && s.wrk[w].f in s.fib }

  predicate WorkerEnabled(s: State, st: Step)
  {
    match st
    case Acquire(w, f, task) => w in s.wrk && s.wrk[w].Idle? && f in s.pool && f in s.fib && task !in s.fiberOf
    case Pick(w, f) => w in s.wrk && s.wrk[w].Idle? && f in s.ready && f in s.fib
    case SwitchIn(w) => At(s, w) && s.wrk[w].Picked?
    case Inspect(w) => At(s, w) && s.wrk[w].Returned?
    case YieldReady(w) => At(s, w) && s.wrk[w].Yielded?
    case Park(w) => At(s, w) && s.wrk[w].Parking?
    case WakeReady(w) => At(s, w) && s.wrk[w].Rousing?
    case Push(w) => At(s, w) && s.wrk[w].Pushing?
    case _ => false
  }

  function Pushed(h: seq<Rec>, k: nat): (h': seq<Rec>)
  {
    if k < |h| then h[k := h[k].(pushed := h[k].pushed + 1)] else h
  }

  function WorkerApply(s: State, st: Step): (s': State)
    requires WorkerEnabled(s, st)
  {
    match st
    case Acquire(w, f, task) =>
      SetFiber(s, f, s.fib[f].(task := task, loc := OnWorker(w)))
      .(wrk := s.wrk[w := Picked(f)], pool := s.pool - {f}, fiberOf := s.fiberOf[task := f])
    case Pick(w, f) =>
      SetFiber(s, f, s.fib[f].(loc := OnWorker(w))).(wrk := s.wrk[w := Picked(f)], ready := s.ready - multiset{f})
    case SwitchIn(w) =>
      var i := s.wrk[w].f;
      SetFiber(s, i, s.fib[i].(status := Running, pc := Body)).(wrk := s.wrk[w := Executing(i)])
    case Inspect(w) =>
      var i := s.wrk[w].f;
      var f := s.fib[i];
      if f.status == Dead then
        SetFiber(s, i, f.(status := Ready, loc := InPool))
        .(wrk := s.wrk[w := Idle], pool := s.pool + {i}, fiberOf := s.fiberOf - {f.task})
      else if f.status == WantsYield then
        s.(wrk := s.wrk[w := Yielded(i)])
      else
        s.(wrk := s.wrk[w := Parking(i)])
    case YieldReady(w) =>
      var i := s.wrk[w].f;
      SetFiber(s, i, s.fib[i].(status := Ready)).(wrk := s.wrk[w := Pushing(i, false)])
    case Park(w) =>
      var i := s.wrk[w].f;
      var f := s.fib[i];
      if f.status == WantsSuspend then
        SetFiber(s, i, f.(status := Suspended, loc := Parked)).(wrk := s.wrk[w := Idle])
      else if f.status == SuspendSignaled then
        s.(wrk := s.wrk[w := Rousing(i)])
      else
        s.(wrk := s.wrk[w := Idle])
    case WakeReady(w) =>
      var i := s.wrk[w].f;
      SetFiber(s, i, s.fib[i].(status := Ready, tok := AtWorker)).(wrk := s.wrk[w := Pushing(i, true)])
    case Push(w) =>
      var i := s.wrk[w].f;
      var f := s.fib[i];
      SetFiber(s, i, f.(tok := NoToken, loc := InQueue))
      .(wrk := s.wrk[w := Idle], ready := s.ready + multiset{i},
        hist := if s.wrk[w].wake then Pushed(s.hist, f.ticket) else s.hist)
  }

  // ---- the steps of a caller thread --------------------------------------------------------------

  // The bits of word w of event e's bitmap, as fiber indices.
  function Word(s: State, e: nat, w: nat): (r: set<nat>)
  {
    set i | 0 <= i < s.count && i / 64 == w && Slot(e, i) in s.occ
  }

  // Waiters whose AddWaiter has returned and whom nobody has taken yet.
  function Registered(s: State, e: nat): (r: map<nat, nat>)
  {
    map i | i in s.fib && Slot(e, i) in s.slots && s.fib[i].pc != Stored :: s.slots[Slot(e, i)].ticket
  }

  predicate Holds(th: Thread) { th.pc in {Marking, ResumeLoad, ResumeReady, ResumeSignal} }

  // Task::assignedFiber of the task being resumed is not null
  predicate Deref(s: State, th: Thread) { th.hold.task in s.fiberOf && s.fiberOf[th.hold.task] in s.fib }

  predicate ThreadEnabled(s: State, st: Step)
  {
    match st
    case Begin(t, op, e) => t in s.thr && (s.thr[t].pc.Rest? || s.thr[t].pc.Done?)
    case LoadWord(t) => t in s.thr && s.thr[t].pc == Load
    case ExchangeWord(t) => t in s.thr && s.thr[t].pc == Exchange
    case ClaimBit(t, b) => t in s.thr && s.thr[t].pc == Loop && b in s.thr[t].bits
      && forall b' :: b' in s.thr[t].bits ==> b <= b'
    case NextWord(t) => t in s.thr && s.thr[t].pc == Loop && s.thr[t].bits == {}
    case TakeSlot(t) => t in s.thr && s.thr[t].pc.Claimed?
    case MarkCancelled(t) => t in s.thr && s.thr[t].pc == Marking
    case TakeCell(t) => t in s.thr && s.thr[t].pc == SignalCell && s.thr[t].op.Single?
    case LoadStatus(t) => t in s.thr && s.thr[t].pc == ResumeLoad && Deref(s, s.thr[t])
    case CasReady(t) => t in s.thr && s.thr[t].pc == ResumeReady && Deref(s, s.thr[t])
    case CasSignal(t) => t in s.thr && s.thr[t].pc == ResumeSignal && Deref(s, s.thr[t])
    case Requeue(t, x) => t in s.thr && s.thr[t].pc.Flush? && x in s.thr[t].out
      && x.task in s.fiberOf && s.fiberOf[x.task] in s.fib
    case NextBatch(t) => t in s.thr && s.thr[t].pc.Flush? && s.thr[t].out == multiset{}
    case _ => false
  }

  function SetThread(s: State, t: nat, th: Thread): (s': State) { s.(thr := s.thr[t := th]) }

  // Where a call continues once the waiter it took needs nothing more from it.
  function After(th: Thread): (th': Thread)
  {
    match th.op
    case All => th.(pc := Loop)
    case Cancel => th.(pc := Loop)
    case One => th.(pc := Done(true))
    case Single(d) => th.(pc := Done(true))
  }

  // A won resume: SignalAll and CancelWaiters buffer it by lane, the single wakes re-queue it now.
  function Collect(s: State, th: Thread): (th': Thread)
  {
    var x := th.hold;
    if th.op.One? || th.op.Single? then
      th.(out := th.out + multiset{x}, pc := Flush(false))
    else if x.task in s.urgent then
      if |th.hi| + 1 == BUFFER then th.(hi := multiset{}, out := th.out + th.hi + multiset{x}, pc := Flush(false))
      else th.(hi := th.hi + multiset{x}, pc := Loop)
    else
      if |th.lo| + 1 == BUFFER then th.(lo := multiset{}, out := th.out + th.lo + multiset{x}, pc := Flush(false))
      else th.(lo := th.lo + multiset{x}, pc := Loop)
  }

  // The last flush of a scan: the urgent buffer, then the normal one, then return.
  function FinalBatch(th: Thread): (th': Thread)
  {
    if th.hi != multiset{} then th.(out := th.hi, hi := multiset{})
    else if th.lo != multiset{} then th.(out := th.lo, lo := multiset{})
    else th.(pc := Done(th.took > 0))
  }

  // A caller exchanges the waiter at p out of the table.
  function Take(s: State, t: nat, p: Place, pc: ThreadPc): (s': State)
    requires t in s.thr && p in s.slots
  {
    var x := s.slots[p];
    var s1 := SetThread(s, t, s.thr[t].(hold := x, pc := pc, took := s.thr[t].took + 1))
              .(slots := s.slots - {p},
                hist := if x.ticket < |s.hist| then s.hist[x.ticket := s.hist[x.ticket].(taken := s.hist[x.ticket].taken + 1)] else s.hist);
    if x.task in s.fiberOf && s.fiberOf[x.task] in s.fib then
      SetFiber(s1, s.fiberOf[x.task], s.fib[s.fiberOf[x.task]].(tok := Held(t)))
    else s1
  }

  function ThreadApply(s: State, st: Step): (s': State)
    requires ThreadEnabled(s, st)
  {
    var th := s.thr[st.t];
    match st
    case Begin(t, op, e) =>
      SetThread(s, t, Thread(op, if op.Single? then SignalCell else if e in s.built then Load else Done(false),
                             e, 0, {}, th.hold, multiset{}, multiset{}, multiset{}, Registered(s, e), 0))
    case LoadWord(t) =>
      if s.count <= 64 * th.w then
        SetThread(s, t, th.(pc := if th.op.One? then Done(false) else Flush(true)))
      else if th.op.All? then
        SetThread(s, t, if Word(s, th.e, th.w) == {} then th.(w := th.w + 1) else th.(pc := Exchange))
      else
        SetThread(s, t, th.(bits := Word(s, th.e, th.w), pc := Loop))
    case ExchangeWord(t) =>
      SetThread(s, t, th.(bits := Word(s, th.e, th.w), pc := Loop))
      .(occ := s.occ - (set i | i in Word(s, th.e, th.w) :: Slot(th.e, i)))
    case ClaimBit(t, b) =>
      // SignalAll already owns every bit it exchanged; the other two fetch_and this one
      if th.op.All? then
        SetThread(s, t, th.(bits := th.bits - {b}, pc := Claimed(b)))
      else
        SetThread(s, t, th.(bits := th.bits - {b}, pc := if Slot(th.e, b) in s.occ then Claimed(b) else Loop))
        .(occ := s.occ - {Slot(th.e, b)})
    case NextWord(t) => SetThread(s, t, th.(w := th.w + 1, pc := Load))
    case TakeSlot(t) =>
      var p := Slot(th.e, th.pc.i);
      if p in s.slots then Take(s, t, p, if th.op.Cancel? then Marking else ResumeLoad)
      else SetThread(s, t, th.(pc := Loop))
    case MarkCancelled(t) => SetThread(s, t, th.(pc := ResumeLoad)).(cancelled := s.cancelled + {th.hold.task})
    case TakeCell(t) =>
      if Direct(th.op.d) in s.slots then Take(s, t, Direct(th.op.d), ResumeLoad)
      else SetThread(s, t, th.(pc := Done(false)))
    case LoadStatus(t) =>
      var status := s.fib[s.fiberOf[th.hold.task]].status;
      SetThread(s, t, if status == Suspended then th.(pc := ResumeReady)
                      else if status == WantsSuspend then th.(pc := ResumeSignal)
                      else After(th))
    case CasReady(t) =>
      var i := s.fiberOf[th.hold.task];
      var f := s.fib[i];
      if f.status == Suspended then
        SetFiber(SetThread(s, t, Collect(s, th)), i, f.(status := Ready, tok := Buffered(t)))
      else SetThread(s, t, After(th))
    case CasSignal(t) =>
      var i := s.fiberOf[th.hold.task];
      var f := s.fib[i];
      if f.status == WantsSuspend then
        SetFiber(SetThread(s, t, After(th)), i, f.(status := SuspendSignaled, tok := Signalled))
      else SetThread(s, t, th.(pc := ResumeLoad))
    case Requeue(t, x) =>
      var i := s.fiberOf[x.task];
      SetFiber(SetThread(s, t, th.(out := th.out - multiset{x})), i, s.fib[i].(tok := NoToken, loc := InQueue))
      .(ready := s.ready + multiset{i}, hist := Pushed(s.hist, x.ticket))
    case NextBatch(t) =>
      SetThread(s, t, if th.pc.last then FinalBatch(th) else After(th))
  }

  predicate Enabled(s: State, st: Step) { FiberEnabled(s, st) || WorkerEnabled(s, st) || ThreadEnabled(s, st) }

  function Apply(s: State, st: Step): (s': State)
    requires Enabled(s, st)
  {
    if FiberEnabled(s, st) then FiberApply(s, st)
    else if WorkerEnabled(s, st) then WorkerApply(s, st)
    else ThreadApply(s, st)
  }
}
