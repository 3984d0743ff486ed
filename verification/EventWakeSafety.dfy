/**
 Wake-exactly-once for the Event table and the suspend/resume handshake: the inductive invariant
 of EventWake, one conjunct per relation between two parts of the state.
 */
module EventWakeSafety {
  import opened EventWake

  // ---- Hosting: which status a fiber has, by where it is ------------------------------------------

  ghost predicate Waiting(f: Fiber) { f.tok.InSlot? || f.tok.Held? }

  // Between "become parkable" and the worker's decision: either the wake is still to come, or it
  // has come early and the status says so.
  ghost predicate Suspending(f: Fiber)
  {
    (f.status == WantsSuspend && Waiting(f)) || (f.status == SuspendSignaled && f.tok == Signalled)
  }

  ghost predicate CodeOk(f: Fiber)
  {
    match f.pc
    case Off => false
    case Body => f.status == Running && f.tok == NoToken
    case Marked => f.status == WantsSuspend && f.tok == Pending
    case Stored => Suspending(f) && f.place.Slot?
    case Listed => Suspending(f)
    case Unlisted => Suspending(f) && f.place.Slot?
    case Leaving => Suspending(f)
    case Won => f.status == WantsSuspend && f.tok == NoToken
    case Yielding => f.status == WantsYield && f.tok == NoToken
    case Ending => f.status == Dead && f.tok == NoToken
  }

  ghost predicate WorkerOk(f: Fiber, k: Worker)
  {
    match k
    case Idle => false
    case Picked(_) => f.pc == Off && f.status == Ready && f.tok == NoToken
    case Executing(_) => CodeOk(f)
    case Returned(_) => f.pc == Off && (Suspending(f) || (f.tok == NoToken && f.status in {WantsYield, Dead}))
    case Yielded(_) => f.pc == Off && f.tok == NoToken && f.status == WantsYield
    case Parking(_) => f.pc == Off && Suspending(f)
    case Rousing(_) => f.pc == Off && f.tok == Signalled && f.status == SuspendSignaled
    case Pushing(_, wake) => f.pc == Off && f.status == Ready && f.tok == if wake then AtWorker else NoToken
  }

  ghost predicate FiberOk(f: Fiber, i: nat, wrk: map<nat, Worker>)
  {
    match f.loc
    case InPool => f.pc == Off && f.status == Ready && f.tok == NoToken
    case InQueue => f.pc == Off && f.status == Ready && f.tok == NoToken
    case Parked => f.pc == Off && ((f.status == Suspended && Waiting(f)) || (f.status == Ready && f.tok.Buffered?))
    case OnWorker(w) => w in wrk && !wrk[w].Idle? && wrk[w].f == i && WorkerOk(f, wrk[w])
  }

  ghost predicate Hosting(fib: map<nat, Fiber>, wrk: map<nat, Worker>)
  {
    && (forall i :: i in fib ==> FiberOk(fib[i], i, wrk))
    && (forall w :: w in wrk && !wrk[w].Idle? ==> wrk[w].f in fib && fib[wrk[w].f].loc == OnWorker(w))
  }

  lemma Rehost(fib: map<nat, Fiber>, wrk: map<nat, Worker>, i: nat, f: Fiber, w: nat, k: Worker)
    requires Hosting(fib, wrk) && i in fib && w in wrk
    requires if wrk[w].Idle? then !fib[i].loc.OnWorker? else wrk[w].f == i
    requires if k.Idle? then !f.loc.OnWorker? else k.f == i && f.loc == OnWorker(w)
    requires FiberOk(f, i, wrk[w := k])
    ensures Hosting(fib[i := f], wrk[w := k])
  {
  }

  lemma Touch(fib: map<nat, Fiber>, wrk: map<nat, Worker>, i: nat, f: Fiber)
    requires Hosting(fib, wrk) && i in fib && FiberOk(f, i, wrk)
    requires f.loc == fib[i].loc || (!f.loc.OnWorker? && !fib[i].loc.OnWorker?)
    ensures Hosting(fib[i := f], wrk)
  {
  }

  // ---- Queueing: a fiber is in a queue once or not at all -----------------------------------------

  ghost predicate Queueing(fib: map<nat, Fiber>, ready: multiset<nat>, pool: set<nat>)
  {
    && (forall i :: i in ready ==> i in fib)
    && (forall i :: i in fib ==> ready[i] == if fib[i].loc == InQueue then 1 else 0)
    && (forall i :: i in pool ==> i in fib)
    && (forall i :: i in fib ==> (i in pool <==> fib[i].loc == InPool))
  }

  // ---- Binding: Task::assignedFiber and Fiber::owningTask are inverse -----------------------------

  ghost predicate Binding(fib: map<nat, Fiber>, fiberOf: map<nat, nat>)
  {
    && (forall i :: i in fib && fib[i].loc != InPool ==> fib[i].task in fiberOf && fiberOf[fib[i].task] == i)
    && (forall k :: k in fiberOf ==> fiberOf[k] in fib && fib[fiberOf[k]].loc != InPool && fib[fiberOf[k]].task == k)
  }

  // ---- Placing: a waiting fiber is published only where it owns the cell --------------------------

  ghost predicate Placing(fib: map<nat, Fiber>, built: set<nat>, owner: map<nat, nat>)
  {
    forall i :: i in fib && fib[i].tok != NoToken ==>
      if fib[i].place.Slot? then fib[i].place.i == i && fib[i].place.e in built
      else fib[i].place.d in owner && owner[fib[i].place.d] == i
  }

  // ---- Waking: each waiting fiber's wake is in exactly one pair of hands --------------------------

  // What a caller thread has in hand: the waiter it took and is resuming, and those it resumed and
  // still has to re-queue.
  datatype Hold = Nothing | Taken(x: Waiter)
  datatype Hand = Hand(hold: Hold, owed: multiset<Waiter>)

  function HandOf(th: Thread): (h: Hand)
  {
    Hand(if Holds(th) then Taken(th.hold) else Nothing, th.hi + th.lo + th.out)
  }

  function Hands(thr: map<nat, Thread>): (h: map<nat, Hand>) { map t | t in thr :: HandOf(thr[t]) }

  lemma HandsUpdate(thr: map<nat, Thread>, t: nat, th: Thread)
    ensures Hands(thr[t := th]) == Hands(thr)[t := HandOf(th)]
  {
  }

  function Me(f: Fiber): (x: Waiter) { Waiter(f.task, f.ticket) }

  // No partner outside the fiber record.
  ghost predicate Alone(k: Token) { k in {NoToken, Pending, Signalled, AtWorker} }

  ghost predicate TokenOk(i: nat, f: Fiber, fiberOf: map<nat, nat>, slots: map<Place, Waiter>, hands: map<nat, Hand>)
  {
    && (!Alone(f.tok) ==> f.task in fiberOf && fiberOf[f.task] == i)
    && (f.tok.InSlot? ==> f.place in slots && slots[f.place] == Me(f))
    && (f.tok.Held? ==> f.tok.t in hands && hands[f.tok.t].hold == Taken(Me(f)))
    && (f.tok.Buffered? ==> f.tok.t in hands && hands[f.tok.t].owed[Me(f)] == 1)
  }

  // x names a live task whose fiber is at this very wait, with its wake at token k
  ghost predicate Names(fib: map<nat, Fiber>, fiberOf: map<nat, nat>, x: Waiter, k: Token)
  {
    x.task in fiberOf && fiberOf[x.task] in fib && fib[fiberOf[x.task]].tok == k && Me(fib[fiberOf[x.task]]) == x
  }

  ghost predicate HandOk(fib: map<nat, Fiber>, fiberOf: map<nat, nat>, t: nat, h: Hand)
  {
    && (h.hold.Taken? ==> Names(fib, fiberOf, h.hold.x, Held(t)))
    && (forall x :: x in h.owed ==> h.owed[x] == 1 && Names(fib, fiberOf, x, Buffered(t)))
  }

  ghost predicate Waking(fib: map<nat, Fiber>, fiberOf: map<nat, nat>, slots: map<Place, Waiter>, hands: map<nat, Hand>)
  {
    && (forall i :: i in fib ==> TokenOk(i, fib[i], fiberOf, slots, hands))
    && (forall p :: p in slots ==> Names(fib, fiberOf, slots[p], InSlot) && fib[fiberOf[slots[p].task]].place == p)
    && (forall t :: t in hands ==> HandOk(fib, fiberOf, t, hands[t]))
  }

  lemma WakingTouch(fib: map<nat, Fiber>, fiberOf: map<nat, nat>, slots: map<Place, Waiter>, hands: map<nat, Hand>,
                    i: nat, f: Fiber)
    requires Waking(fib, fiberOf, slots, hands) && i in fib
    requires (Alone(fib[i].tok) && Alone(f.tok))
          || (f.tok == fib[i].tok && f.place == fib[i].place && Me(f) == Me(fib[i]))
    ensures Waking(fib[i := f], fiberOf, slots, hands)
  {
  }

  lemma WakingStore(fib: map<nat, Fiber>, fiberOf: map<nat, nat>, slots: map<Place, Waiter>, hands: map<nat, Hand>,
                    i: nat, f: Fiber)
    requires Waking(fib, fiberOf, slots, hands) && i in fib && Alone(fib[i].tok) && f.tok == InSlot
    requires f.task in fiberOf && fiberOf[f.task] == i && f.place !in slots
    ensures Waking(fib[i := f], fiberOf, slots[f.place := Me(f)], hands)
  {
  }

  lemma WakingSelf(fib: map<nat, Fiber>, fiberOf: map<nat, nat>, slots: map<Place, Waiter>, hands: map<nat, Hand>,
                   i: nat, f: Fiber)
    requires Waking(fib, fiberOf, slots, hands) && i in fib && fib[i].tok == InSlot && Alone(f.tok)
    ensures Waking(fib[i := f], fiberOf, slots - {fib[i].place}, hands)
  {
  }

  lemma WakingTake(fib: map<nat, Fiber>, fiberOf: map<nat, nat>, slots: map<Place, Waiter>, hands: map<nat, Hand>,
                   i: nat, t: nat)
    requires Waking(fib, fiberOf, slots, hands) && i in fib && t in hands && fib[i].tok == InSlot
    requires hands[t].hold == Nothing
    ensures Waking(fib[i := fib[i].(tok := Held(t))], fiberOf, slots - {fib[i].place},
                   hands[t := hands[t].(hold := Taken(Me(fib[i])))])
  {
  }

  lemma WakingDrop(fib: map<nat, Fiber>, fiberOf: map<nat, nat>, slots: map<Place, Waiter>, hands: map<nat, Hand>,
                   i: nat, f: Fiber, t: nat)
    requires Waking(fib, fiberOf, slots, hands) && i in fib && t in hands && fib[i].tok == Held(t) && Alone(f.tok)
    ensures Waking(fib[i := f], fiberOf, slots, hands[t := hands[t].(hold := Nothing)])
  {
  }

  lemma WakingBuffer(fib: map<nat, Fiber>, fiberOf: map<nat, nat>, slots: map<Place, Waiter>, hands: map<nat, Hand>,
                     i: nat, f: Fiber, t: nat)
    requires Waking(fib, fiberOf, slots, hands) && i in fib && t in hands && fib[i].tok == Held(t)
    requires f.tok == Buffered(t) && Me(f) == Me(fib[i])
    ensures Waking(fib[i := f], fiberOf, slots, hands[t := Hand(Nothing, hands[t].owed + multiset{Me(f)})])
  {
  }

  lemma WakingRequeue(fib: map<nat, Fiber>, fiberOf: map<nat, nat>, slots: map<Place, Waiter>, hands: map<nat, Hand>,
                      i: nat, f: Fiber, t: nat)
    requires Waking(fib, fiberOf, slots, hands) && i in fib && t in hands && fib[i].tok == Buffered(t) && Alone(f.tok)
    ensures Waking(fib[i := f], fiberOf, slots, hands[t := hands[t].(owed := hands[t].owed - multiset{Me(fib[i])})])
  {
  }

  lemma WakingBind(fib: map<nat, Fiber>, fiberOf: map<nat, nat>, slots: map<Place, Waiter>, hands: map<nat, Hand>,
                   i: nat, f: Fiber, fiberOf': map<nat, nat>)
    requires Waking(fib, fiberOf, slots, hands) && i in fib && Alone(fib[i].tok) && Alone(f.tok)
    requires forall k :: k in fiberOf && fiberOf[k] != i ==> k in fiberOf' && fiberOf'[k] == fiberOf[k]
    ensures Waking(fib[i := f], fiberOf', slots, hands)
  {
  }

  // ---- Logging: what the log says about a wait, given where its token is --------------------------

  ghost predicate RecOk(r: Rec, k: Token)
  {
    match k
    case Pending => r.stored == 0 && r.taken == 0 && r.self == 0 && r.pushed == 0
    case InSlot => r.stored == 1 && r.taken == 0 && r.self == 0 && r.pushed == 0
    case NoToken => r.stored == 1 && r.taken + r.self == 1 && r.pushed == r.taken
    case _ => r.stored == 1 && r.taken == 1 && r.self == 0 && r.pushed == 0
  }

  // The token of wait k: the fiber's while k is its current wait, spent afterwards.
  ghost predicate Logging(fib: map<nat, Fiber>, hist: seq<Rec>)
  {
    && (forall k :: 0 <= k < |hist| ==>
          hist[k].fiber in fib
          && RecOk(hist[k], if fib[hist[k].fiber].ticket == k then fib[hist[k].fiber].tok else NoToken))
    && (forall i :: i in fib && fib[i].tok != NoToken ==> 
          fib[i].ticket < |hist| && hist[fib[i].ticket].fiber == i && hist[fib[i].ticket].place == fib[i].place)
  }

  lemma LoggingTouch(fib: map<nat, Fiber>, hist: seq<Rec>, i: nat, f: Fiber)
    requires Logging(fib, hist) && i in fib && f.ticket == fib[i].ticket && f.tok == fib[i].tok && f.place == fib[i].place
    ensures Logging(fib[i := f], hist)
  {
  }

  lemma LoggingStep(fib: map<nat, Fiber>, hist: seq<Rec>, i: nat, f: Fiber, r: Rec)
    requires Logging(fib, hist) && i in fib && f.ticket == fib[i].ticket && fib[i].tok != NoToken
    requires RecOk(r, f.tok) && r.fiber == i && r.place == f.place
    ensures f.ticket < |hist| && Logging(fib[i := f], hist[f.ticket := r])
  {
  }

  lemma LoggingNew(fib: map<nat, Fiber>, hist: seq<Rec>, i: nat, f: Fiber)
    requires Logging(fib, hist) && i in fib && fib[i].tok == NoToken && f.tok == Pending && f.ticket == |hist|
    ensures Logging(fib[i := f], hist + [Rec(i, f.place, 0, 0, 0, 0)])
  {
  }

  // ---- Tidiness: what a call keeps in its buffers, by program point -------------------------------

  ghost predicate TidyThread(th: Thread)
  {
    && (th.out != multiset{} ==> th.pc.Flush?)
    && (th.op.One? || th.op.Single? ==>
          th.hi == th.lo == multiset{} && th.pc != Flush(true)
          && th.took == if Holds(th) || th.pc.Flush? || th.pc == Done(true) then 1 else 0)
    && (th.op.Single? ==> th.pc.SignalCell? || th.pc.Flush? || th.pc.Done? || Holds(th))
    && (th.pc.Rest? || th.pc.Done? ==> th.hi == th.lo == th.out == multiset{})
  }

  ghost predicate Tidy(thr: map<nat, Thread>) { forall t :: t in thr ==> TidyThread(thr[t]) }

  ghost predicate Core(s: State)
  {
    && Hosting(s.fib, s.wrk)
    && Queueing(s.fib, s.ready, s.pool)
    && Binding(s.fib, s.fiberOf)
    && Placing(s.fib, s.built, s.owner)
    && Waking(s.fib, s.fiberOf, s.slots, Hands(s.thr))
    && Logging(s.fib, s.hist)
    && Tidy(s.thr)
  }

  // ---- how one fiber record may change ------------------------------------------------------------

  ghost predicate Kept(l: Loc) { l != InQueue && l != InPool }

  lemma QueueingTouch(fib: map<nat, Fiber>, ready: multiset<nat>, pool: set<nat>, i: nat, f: Fiber)
    requires Queueing(fib, ready, pool) && i in fib && (f.loc == fib[i].loc || (Kept(f.loc) && Kept(fib[i].loc)))
    ensures Queueing(fib[i := f], ready, pool)
  {
  }

  lemma QueueingPush(fib: map<nat, Fiber>, ready: multiset<nat>, pool: set<nat>, i: nat, f: Fiber)
    requires Queueing(fib, ready, pool) && i in fib && Kept(fib[i].loc) && f.loc == InQueue
    ensures Queueing(fib[i := f], ready + multiset{i}, pool)
  {
  }

  lemma QueueingPop(fib: map<nat, Fiber>, ready: multiset<nat>, pool: set<nat>, i: nat, f: Fiber)
    requires Queueing(fib, ready, pool) && i in fib && i in ready && Kept(f.loc)
    ensures Queueing(fib[i := f], ready - multiset{i}, pool)
  {
  }

  lemma QueueingLend(fib: map<nat, Fiber>, ready: multiset<nat>, pool: set<nat>, i: nat, f: Fiber)
    requires Queueing(fib, ready, pool) && i in pool && Kept(f.loc)
    ensures Queueing(fib[i := f], ready, pool - {i})
  {
  }

  lemma QueueingReturn(fib: map<nat, Fiber>, ready: multiset<nat>, pool: set<nat>, i: nat, f: Fiber)
    requires Queueing(fib, ready, pool) && i in fib && Kept(fib[i].loc) && f.loc == InPool
    ensures Queueing(fib[i := f], ready, pool + {i})
  {
  }

  lemma BindingNew(fib: map<nat, Fiber>, fiberOf: map<nat, nat>, i: nat, f: Fiber)
    requires Binding(fib, fiberOf) && i in fib && fib[i].loc == InPool && f.loc != InPool && f.task !in fiberOf
    ensures Binding(fib[i := f], fiberOf[f.task := i])
  {
  }

  lemma BindingEnd(fib: map<nat, Fiber>, fiberOf: map<nat, nat>, i: nat, f: Fiber)
    requires Binding(fib, fiberOf) && i in fib && fib[i].loc != InPool && f.loc == InPool
    ensures Binding(fib[i := f], fiberOf - {fib[i].task})
  {
  }

  lemma BindingTouch(fib: map<nat, Fiber>, fiberOf: map<nat, nat>, i: nat, f: Fiber)
    requires Binding(fib, fiberOf) && i in fib && f.task == fib[i].task && (f.loc == InPool <==> fib[i].loc == InPool)
    ensures Binding(fib[i := f], fiberOf)
  {
  }

  lemma PlacingTouch(fib: map<nat, Fiber>, built: set<nat>, owner: map<nat, nat>, i: nat, f: Fiber)
    requires Placing(fib, built, owner) && i in fib
    requires f.tok == NoToken || (fib[i].tok != NoToken && f.place == fib[i].place)
    ensures Placing(fib[i := f], built, owner)
  {
  }

  // Status, program point or location change, and nothing else.
  lemma Plain(s: State, i: nat, f: Fiber)
    requires Core(s) && i in s.fib
    requires f.loc == s.fib[i].loc || (Kept(f.loc) && Kept(s.fib[i].loc))
    requires Me(f) == Me(s.fib[i]) && f.place == s.fib[i].place && f.tok == s.fib[i].tok
    ensures Queueing(s.fib[i := f], s.ready, s.pool)
    ensures Binding(s.fib[i := f], s.fiberOf)
    ensures Placing(s.fib[i := f], s.built, s.owner)
    ensures Waking(s.fib[i := f], s.fiberOf, s.slots, Hands(s.thr))
    ensures Logging(s.fib[i := f], s.hist)
  {
    hide Hosting, Queueing, Binding, Placing, Waking, Logging, Tidy;
    QueueingTouch(s.fib, s.ready, s.pool, i, f);
    BindingTouch(s.fib, s.fiberOf, i, f);
    PlacingTouch(s.fib, s.built, s.owner, i, f);
    WakingTouch(s.fib, s.fiberOf, s.slots, Hands(s.thr), i, f);
    LoggingTouch(s.fib, s.hist, i, f);
  }

  // The fiber a worker is busy with.
  lemma Hosted(s: State, w: nat)
    requires Core(s) && At(s, w)
    ensures var i := s.wrk[w].f; s.fib[i].loc == OnWorker(w) && WorkerOk(s.fib[i], s.wrk[w])
    ensures var f := s.fib[s.wrk[w].f]; f.task in s.fiberOf && s.fiberOf[f.task] == s.wrk[w].f
  {
    hide Queueing, Placing, Waking, Logging, Tidy;
  }

  // ---- the steps of the code on a fiber -----------------------------------------------------------

  lemma CoreReserve(s: State, w: nat, e: nat)
    requires Core(s) && FiberEnabled(s, Reserve(w, e))
    ensures Core(FiberApply(s, Reserve(w, e)))
  {
    hide Hosting, Queueing, Binding, Waking, Logging, Tidy;
  }

  // A free DirectEvent holds no waiter, so EventPool::Acquire's reset of it loses none.
  lemma FreeCell(s: State, d: nat)
    requires Core(s) && d !in s.owner
    ensures Direct(d) !in s.slots
  {
    hide Hosting, Queueing, Binding, Logging, Tidy;
  }

  lemma CoreCheckOut(s: State, w: nat, d: nat)
    requires Core(s) && FiberEnabled(s, CheckOut(w, d))
    ensures Core(FiberApply(s, CheckOut(w, d)))
  {
    hide Hosting, Queueing, Binding, Waking, Logging, Tidy;
    FreeCell(s, d);
    assert s.slots - {Direct(d)} == s.slots;
  }

  lemma CoreCheckIn(s: State, w: nat, d: nat)
    requires Core(s) && FiberEnabled(s, CheckIn(w, d))
    ensures Core(FiberApply(s, CheckIn(w, d)))
  {
    hide Hosting, Queueing, Binding, Waking, Logging, Tidy;
    Hosted(s, w);
  }

  lemma CoreMark(s: State, w: nat, p: Place)
    requires Core(s) && FiberEnabled(s, Mark(w, p))
    ensures Core(FiberApply(s, Mark(w, p)))
  {
    hide Hosting, Queueing, Binding, Waking, Logging, Tidy;
    Hosted(s, w);
    var i := s.wrk[w].f;
    var f := s.fib[i].(status := WantsSuspend, pc := Marked, place := p, ticket := |s.hist|, tok := Pending);
    Touch(s.fib, s.wrk, i, f);
    QueueingTouch(s.fib, s.ready, s.pool, i, f);
    BindingTouch(s.fib, s.fiberOf, i, f);
    WakingTouch(s.fib, s.fiberOf, s.slots, Hands(s.thr), i, f);
    LoggingNew(s.fib, s.hist, i, f);
  }

  // Nobody else is published at the place a fiber is about to publish itself at.
  lemma FreePlace(s: State, i: nat)
    requires Core(s) && i in s.fib && s.fib[i].tok == Pending
    ensures s.fib[i].place !in s.slots
  {
    hide Hosting, Queueing, Binding, Logging, Tidy;
  }

  lemma CurrentRec(s: State, i: nat)
    requires Core(s) && i in s.fib && s.fib[i].tok != NoToken
    ensures s.fib[i].ticket < |s.hist| && RecOk(s.hist[s.fib[i].ticket], s.fib[i].tok)
    ensures s.hist[s.fib[i].ticket].fiber == i && s.hist[s.fib[i].ticket].place == s.fib[i].place
  {
    hide Hosting, Queueing, Binding, Waking, Tidy;
  }

  lemma CoreStore(s: State, w: nat)
    requires Core(s) && FiberEnabled(s, Store(w))
    ensures Core(FiberApply(s, Store(w)))
  {
    hide Hosting, Queueing, Binding, Placing, Waking, Logging, Tidy;
    Hosted(s, w);
    var i := s.wrk[w].f;
    FreePlace(s, i);
    CurrentRec(s, i);
    var f := s.fib[i].(pc := if s.fib[i].place.Slot? then Stored else Listed, tok := InSlot);
    Touch(s.fib, s.wrk, i, f);
    QueueingTouch(s.fib, s.ready, s.pool, i, f);
    BindingTouch(s.fib, s.fiberOf, i, f);
    PlacingTouch(s.fib, s.built, s.owner, i, f);
    WakingStore(s.fib, s.fiberOf, s.slots, Hands(s.thr), i, f);
    LoggingStep(s.fib, s.hist, i, f, s.hist[f.ticket].(stored := s.hist[f.ticket].stored + 1));
  }

  lemma CoreSelfTake(s: State, w: nat)
    requires Core(s) && FiberEnabled(s, SelfTake(w))
    ensures Core(FiberApply(s, SelfTake(w)))
  {
    hide Hosting, Queueing, Binding, Placing, Waking, Logging, Tidy;
    Hosted(s, w);
    var i := s.wrk[w].f;
    CurrentRec(s, i);
    if s.fib[i].place in s.slots {
      OwnSlot(s, i);
      var f := s.fib[i].(pc := Won, tok := NoToken);
      Touch(s.fib, s.wrk, i, f);
      QueueingTouch(s.fib, s.ready, s.pool, i, f);
      BindingTouch(s.fib, s.fiberOf, i, f);
      PlacingTouch(s.fib, s.built, s.owner, i, f);
      WakingSelf(s.fib, s.fiberOf, s.slots, Hands(s.thr), i, f);
      LoggingStep(s.fib, s.hist, i, f, s.hist[f.ticket].(self := s.hist[f.ticket].self + 1));
    } else {
      var f := s.fib[i].(pc := Leaving);
      Touch(s.fib, s.wrk, i, f);
      Plain(s, i, f);
    }
  }

  // Whatever a waiting fiber finds at its own place is itself.
  lemma OwnSlot(s: State, i: nat)
    requires Core(s) && i in s.fib && s.fib[i].tok != NoToken && s.fib[i].place in s.slots
    ensures s.fib[i].tok == InSlot && s.slots[s.fib[i].place] == Me(s.fib[i])
  {
    hide Hosting, Queueing, Binding, Logging, Tidy;
    assert Names(s.fib, s.fiberOf, s.slots[s.fib[i].place], InSlot);
  }

  lemma FiberCore(s: State, st: Step)
    requires Core(s) && FiberEnabled(s, st)
    ensures Core(FiberApply(s, st))
  {
    hide Hosting, Queueing, Binding, Placing, Waking, Logging, Tidy;
    match st
    case Reserve(w, e) => CoreReserve(s, w, e);
    case CheckOut(w, d) => CoreCheckOut(s, w, d);
    case CheckIn(w, d) => CoreCheckIn(s, w, d);
    case Mark(w, p) => CoreMark(s, w, p);
    case Store(w) => CoreStore(s, w);
    case SelfTake(w) => CoreSelfTake(s, w);
    case SwitchOut(w) => Hosted(s, w); CorePlain(s, w, s.fib[s.wrk[w].f].(pc := Off), Returned(s.wrk[w].f));
    case _ => CoreStay(s, st);
  }

  lemma CoreStay(s: State, st: Step)
    requires Core(s) && FiberEnabled(s, st)
    requires st.SetBit? || st.Unlist? || st.KeepRunning? || st.MarkYield? || st.MarkDead?
    ensures Core(FiberApply(s, st))
  {
    hide Hosting, Queueing, Binding, Placing, Waking, Logging, Tidy;
    Hosted(s, st.w);
    var s' := FiberApply(s, st);
    var i := s.wrk[st.w].f;
    assert s'.fib == s.fib[i := s'.fib[i]];
    CoreCode(s, st.w, s'.fib[i]);
  }

  lemma CoreCode(s: State, w: nat, f: Fiber)
    requires Core(s) && OnCpu(s, w) && f.loc == OnWorker(w) && CodeOk(f)
    requires var g := s.fib[s.wrk[w].f]; Me(f) == Me(g) && f.place == g.place && f.tok == g.tok
    ensures Core(s.(fib := s.fib[s.wrk[w].f := f]))
  {
    hide Hosting, Queueing, Binding, Placing, Waking, Logging, Tidy;
    Hosted(s, w);
    Touch(s.fib, s.wrk, s.wrk[w].f, f);
    Plain(s, s.wrk[w].f, f);
  }

  // The worker's fiber changes status, program point or location, and the worker moves on.
  lemma CorePlain(s: State, w: nat, f: Fiber, k: Worker)
    requires Core(s) && At(s, w) && Kept(f.loc)
    requires var g := s.fib[s.wrk[w].f]; Me(f) == Me(g) && f.place == g.place && f.tok == g.tok
    requires if k.Idle? then f.loc == Parked else k.f == s.wrk[w].f && f.loc == OnWorker(w)
    requires FiberOk(f, s.wrk[w].f, s.wrk[w := k])
    ensures Core(s.(fib := s.fib[s.wrk[w].f := f], wrk := s.wrk[w := k]))
  {
    hide Hosting, Queueing, Binding, Placing, Waking, Logging, Tidy;
    Hosted(s, w);
    Rehost(s.fib, s.wrk, s.wrk[w].f, f, w, k);
    Plain(s, s.wrk[w].f, f);
  }

  // ---- the steps of a worker ------------------------------------------------------------------------

  lemma CoreAcquire(s: State, w: nat, i: nat, task: nat)
    requires Core(s) && WorkerEnabled(s, Acquire(w, i, task))
    ensures Core(WorkerApply(s, Acquire(w, i, task)))
  {
    hide Hosting, Queueing, Binding, Placing, Waking, Logging, Tidy;
    Resting(s, i);
    var f := s.fib[i].(task := task, loc := OnWorker(w));
    Rehost(s.fib, s.wrk, i, f, w, Picked(i));
    QueueingLend(s.fib, s.ready, s.pool, i, f);
    BindingNew(s.fib, s.fiberOf, i, f);
    PlacingTouch(s.fib, s.built, s.owner, i, f);
    WakingBind(s.fib, s.fiberOf, s.slots, Hands(s.thr), i, f, s.fiberOf[task := i]);
    LoggingTouch(s.fib, s.hist, i, f);
  }

  lemma Resting(s: State, i: nat)
    requires Core(s) && i in s.fib && (i in s.pool || i in s.ready)
    ensures (i in s.pool ==> s.fib[i].loc == InPool) && (i in s.ready ==> s.fib[i].loc == InQueue)
    ensures FiberOk(s.fib[i], i, s.wrk)
  {
    hide Binding, Placing, Waking, Logging, Tidy;
  }

  lemma CorePick(s: State, w: nat, i: nat)
    requires Core(s) && WorkerEnabled(s, Pick(w, i))
    ensures Core(WorkerApply(s, Pick(w, i)))
  {
    hide Hosting, Queueing, Binding, Placing, Waking, Logging, Tidy;
    Resting(s, i);
    var f := s.fib[i].(loc := OnWorker(w));
    Rehost(s.fib, s.wrk, i, f, w, Picked(i));
    QueueingPop(s.fib, s.ready, s.pool, i, f);
    BindingTouch(s.fib, s.fiberOf, i, f);
    PlacingTouch(s.fib, s.built, s.owner, i, f);
    WakingTouch(s.fib, s.fiberOf, s.slots, Hands(s.thr), i, f);
    LoggingTouch(s.fib, s.hist, i, f);
  }

  lemma CoreRelease(s: State, w: nat)
    requires Core(s) && WorkerEnabled(s, Inspect(w)) && s.fib[s.wrk[w].f].status == Dead
    ensures Core(WorkerApply(s, Inspect(w)))
  {
    hide Hosting, Queueing, Binding, Placing, Waking, Logging, Tidy;
    Hosted(s, w);
    var i := s.wrk[w].f;
    var f := s.fib[i].(status := Ready, loc := InPool);
    Rehost(s.fib, s.wrk, i, f, w, Idle);
    QueueingReturn(s.fib, s.ready, s.pool, i, f);
    BindingEnd(s.fib, s.fiberOf, i, f);
    PlacingTouch(s.fib, s.built, s.owner, i, f);
    WakingBind(s.fib, s.fiberOf, s.slots, Hands(s.thr), i, f, s.fiberOf - {f.task});
    LoggingTouch(s.fib, s.hist, i, f);
  }

  lemma CoreWakeReady(s: State, w: nat)
    requires Core(s) && WorkerEnabled(s, WakeReady(w))
    ensures Core(WorkerApply(s, WakeReady(w)))
  {
    hide Hosting, Queueing, Binding, Placing, Waking, Logging, Tidy;
    Hosted(s, w);
    var i := s.wrk[w].f;
    CurrentRec(s, i);
    var f := s.fib[i].(status := Ready, tok := AtWorker);
    Rehost(s.fib, s.wrk, i, f, w, Pushing(i, true));
    QueueingTouch(s.fib, s.ready, s.pool, i, f);
    BindingTouch(s.fib, s.fiberOf, i, f);
    PlacingTouch(s.fib, s.built, s.owner, i, f);
    WakingTouch(s.fib, s.fiberOf, s.slots, Hands(s.thr), i, f);
    LoggingStep(s.fib, s.hist, i, f, s.hist[f.ticket]);
    assert s.hist[f.ticket := s.hist[f.ticket]] == s.hist;
  }

  lemma CorePush(s: State, w: nat)
    requires Core(s) && WorkerEnabled(s, Push(w))
    ensures Core(WorkerApply(s, Push(w)))
  {
    hide Hosting, Queueing, Binding, Placing, Waking, Logging, Tidy;
    Hosted(s, w);
    var i := s.wrk[w].f;
    var f := s.fib[i].(tok := NoToken, loc := InQueue);
    Rehost(s.fib, s.wrk, i, f, w, Idle);
    QueueingPush(s.fib, s.ready, s.pool, i, f);
    BindingTouch(s.fib, s.fiberOf, i, f);
    PlacingTouch(s.fib, s.built, s.owner, i, f);
    WakingTouch(s.fib, s.fiberOf, s.slots, Hands(s.thr), i, f);
    if s.fib[i].tok == AtWorker {
      CurrentRec(s, i);
      LoggingStep(s.fib, s.hist, i, f, s.hist[f.ticket].(pushed := s.hist[f.ticket].pushed + 1));
    } else {
      LoggingTouch(s.fib, s.hist, i, f);
    }
  }

  lemma WorkerCore(s: State, st: Step)
    requires Core(s) && WorkerEnabled(s, st)
    ensures Core(WorkerApply(s, st))
  {
    hide Hosting, Queueing, Binding, Placing, Waking, Logging, Tidy;
    match st
    case Acquire(w, i, task) => CoreAcquire(s, w, i, task);
    case Pick(w, i) => CorePick(s, w, i);
    case WakeReady(w) => CoreWakeReady(s, w);
    case Push(w) => CorePush(s, w);
    case SwitchIn(w) =>
      Hosted(s, w);
      CorePlain(s, w, s.fib[s.wrk[w].f].(status := Running, pc := Body), Executing(s.wrk[w].f));
    case YieldReady(w) =>
      Hosted(s, w);
      CorePlain(s, w, s.fib[s.wrk[w].f].(status := Ready), Pushing(s.wrk[w].f, false));
    case Inspect(w) => CoreInspect(s, w);
    case Park(w) => CorePark(s, w);
  }

  lemma CoreInspect(s: State, w: nat)
    requires Core(s) && WorkerEnabled(s, Inspect(w))
    ensures Core(WorkerApply(s, Inspect(w)))
  {
    hide Hosting, Queueing, Binding, Placing, Waking, Logging, Tidy;
    Hosted(s, w);
    var i := s.wrk[w].f;
    if s.fib[i].status == Dead {
      CoreRelease(s, w);
    } else {
      assert s.fib[i := s.fib[i]] == s.fib;
      CorePlain(s, w, s.fib[i], if s.fib[i].status == WantsYield then Yielded(i) else Parking(i));
    }
  }

  lemma CorePark(s: State, w: nat)
    requires Core(s) && WorkerEnabled(s, Park(w))
    ensures Core(WorkerApply(s, Park(w)))
  {
    hide Hosting, Queueing, Binding, Placing, Waking, Logging, Tidy;
    Hosted(s, w);
    var i := s.wrk[w].f;
    if s.fib[i].status == WantsSuspend {
      CorePlain(s, w, s.fib[i].(status := Suspended, loc := Parked), Idle);
    } else {
      assert s.fib[i := s.fib[i]] == s.fib;
      CorePlain(s, w, s.fib[i], Rousing(i));
    }
  }

  // ---- the steps of a caller thread ------------------------------------------------------------------

  lemma TidyOf(s: State, t: nat)
    requires Core(s) && t in s.thr
    ensures TidyThread(s.thr[t])
  {
    hide Hosting, Queueing, Binding, Placing, Waking, Logging;
  }

  lemma TidyUpdate(thr: map<nat, Thread>, t: nat, th: Thread)
    requires Tidy(thr) && TidyThread(th)
    ensures Tidy(thr[t := th])
  {
  }

  // The thread moves on with the same things in hand.
  lemma CoreThread(s: State, t: nat, th: Thread)
    requires Core(s) && t in s.thr && TidyThread(th) && HandOf(th) == HandOf(s.thr[t])
    ensures Core(SetThread(s, t, th))
  {
    hide Hosting, Queueing, Binding, Placing, Waking, Logging, Tidy;
    TidyUpdate(s.thr, t, th);
    HandsUpdate(s.thr, t, th);
    assert Hands(s.thr)[t := HandOf(th)] == Hands(s.thr);
  }

  ghost predicate Scanning(pc: ThreadPc) { pc.Load? || pc.Exchange? || pc.Loop? || pc.Claimed? }

  // Scanning moves the program point and nothing in hand.
  lemma CoreQuiet(s: State, t: nat, th: Thread)
    requires Core(s) && t in s.thr && Scanning(s.thr[t].pc)
    requires th.op == s.thr[t].op && th.hi == s.thr[t].hi && th.lo == s.thr[t].lo && th.out == s.thr[t].out && th.took == s.thr[t].took
    requires Scanning(th.pc) || th.pc == (if th.op.One? then Done(false) else Flush(true))
    ensures Core(SetThread(s, t, th))
  {
    hide Hosting, Queueing, Binding, Placing, Waking, Logging, Tidy;
    TidyOf(s, t);
    CoreThread(s, t, th);
  }

  lemma CoreLoadWord(s: State, t: nat)
    requires Core(s) && ThreadEnabled(s, LoadWord(t))
    ensures Core(ThreadApply(s, LoadWord(t)))
  {
    hide Core, Word;
    var th := s.thr[t];
    if s.count <= 64 * th.w { CoreQuiet(s, t, th.(pc := if th.op.One? then Done(false) else Flush(true))); }
    else if !th.op.All? { CoreQuiet(s, t, th.(bits := Word(s, th.e, th.w), pc := Loop)); }
    else if Word(s, th.e, th.w) == {} { CoreQuiet(s, t, th.(w := th.w + 1)); }
    else { CoreQuiet(s, t, th.(pc := Exchange)); }
  }

  lemma CoreOcc(s: State, occ: set<Place>)
    requires Core(s)
    ensures Core(s.(occ := occ))
  {
    hide Hosting, Queueing, Binding, Placing, Waking, Logging, Tidy;
  }

  lemma CoreScan(s: State, st: Step)
    requires Core(s) && ThreadEnabled(s, st) && (st.ExchangeWord? || st.ClaimBit? || st.NextWord?)
    ensures Core(ThreadApply(s, st))
  {
    hide Core, Word;
    var th := s.thr[st.t];
    var s' := ThreadApply(s, st);
    if st.ExchangeWord? { CoreQuiet(s, st.t, th.(bits := Word(s, th.e, th.w), pc := Loop)); }
    else if st.NextWord? { CoreQuiet(s, st.t, th.(w := th.w + 1, pc := Load)); }
    else if th.op.All? { CoreQuiet(s, st.t, th.(bits := th.bits - {st.b}, pc := Claimed(st.b))); }
    else { CoreQuiet(s, st.t, th.(bits := th.bits - {st.b}, pc := if Slot(th.e, st.b) in s.occ then Claimed(st.b) else Loop)); }
    CoreOcc(SetThread(s, st.t, s'.thr[st.t]), s'.occ);
  }

  lemma CoreMarkCancelled(s: State, t: nat)
    requires Core(s) && ThreadEnabled(s, MarkCancelled(t))
    ensures Core(ThreadApply(s, MarkCancelled(t)))
  {
    hide Hosting, Queueing, Binding, Placing, Waking, Logging, Tidy;
    TidyOf(s, t);
    CoreThread(s, t, s.thr[t].(pc := ResumeLoad));
  }

  lemma CoreBegin(s: State, t: nat, op: Op, e: nat)
    requires Core(s) && ThreadEnabled(s, Begin(t, op, e))
    ensures Core(ThreadApply(s, Begin(t, op, e)))
  {
    hide Hosting, Queueing, Binding, Placing, Waking, Logging, Tidy, Registered;
    TidyOf(s, t);
    CoreThread(s, t, ThreadApply(s, Begin(t, op, e)).thr[t]);
  }

  lemma Batched(th: Thread)
    requires TidyThread(th) && th.pc.Flush? && th.out == multiset{}
    ensures TidyThread(After(th)) || th.pc.last
    ensures th.pc.last ==> TidyThread(FinalBatch(th)) && HandOf(FinalBatch(th)) == HandOf(th)
  {
    var b := FinalBatch(th);
    assert th.pc.last ==> b.hi + b.lo + b.out == th.hi + th.lo + th.out;
  }

  lemma CoreNextBatch(s: State, t: nat)
    requires Core(s) && ThreadEnabled(s, NextBatch(t))
    ensures Core(ThreadApply(s, NextBatch(t)))
  {
    hide Hosting, Queueing, Binding, Placing, Waking, Logging, Tidy, FinalBatch;
    TidyOf(s, t);
    Batched(s.thr[t]);
    CoreThread(s, t, if s.thr[t].pc.last then FinalBatch(s.thr[t]) else After(s.thr[t]));
  }

  // The fiber of the waiter a thread is resuming.
  lemma Resuming(s: State, t: nat)
    requires Core(s) && t in s.thr && Holds(s.thr[t])
    ensures Deref(s, s.thr[t])
    ensures var f := s.fib[s.fiberOf[s.thr[t].hold.task]];
            f.tok == Held(t) && Me(f) == s.thr[t].hold && FiberOk(f, s.fiberOf[s.thr[t].hold.task], s.wrk)
    ensures var f := s.fib[s.fiberOf[s.thr[t].hold.task]]; f.status in {WantsSuspend, Suspended} && f.loc !in {InPool, InQueue}
  {
    hide Queueing, Binding, Placing, Logging, Tidy;
    assert Hands(s.thr)[t] == HandOf(s.thr[t]);
  }

  lemma CoreTake(s: State, t: nat, p: Place, pc: ThreadPc)
    requires Core(s) && t in s.thr && !Holds(s.thr[t]) && s.thr[t].out == multiset{} && p in s.slots
    requires pc == Marking || pc == ResumeLoad
    requires TidyThread(s.thr[t].(pc := pc, hold := s.slots[p], took := s.thr[t].took + 1))
    ensures Core(Take(s, t, p, pc))
  {
    hide Hosting, Queueing, Binding, Placing, Waking, Logging, Tidy;
    Published(s, p);
    var i := s.fiberOf[s.slots[p].task];
    var f := s.fib[i].(tok := Held(t));
    CurrentRec(s, i);
    Touch(s.fib, s.wrk, i, f);
    QueueingTouch(s.fib, s.ready, s.pool, i, f);
    BindingTouch(s.fib, s.fiberOf, i, f);
    PlacingTouch(s.fib, s.built, s.owner, i, f);
    WakingTake(s.fib, s.fiberOf, s.slots, Hands(s.thr), i, t);
    LoggingStep(s.fib, s.hist, i, f, s.hist[f.ticket].(taken := s.hist[f.ticket].taken + 1));
    var th := s.thr[t].(hold := s.slots[p], pc := pc, took := s.thr[t].took + 1);
    HandsUpdate(s.thr, t, th);
    TidyUpdate(s.thr, t, th);
  }

  // A published waiter names a live task whose fiber is suspending or suspended right there.
  lemma Published(s: State, p: Place)
    requires Core(s) && p in s.slots
    ensures s.slots[p].task in s.fiberOf && s.fiberOf[s.slots[p].task] in s.fib
    ensures var i := s.fiberOf[s.slots[p].task]; s.fib[i].tok == InSlot && s.fib[i].place == p && FiberOk(s.fib[i], i, s.wrk)
    ensures Me(s.fib[s.fiberOf[s.slots[p].task]]) == s.slots[p]
  {
    hide Queueing, Binding, Placing, Logging, Tidy;
    assert Names(s.fib, s.fiberOf, s.slots[p], InSlot);
  }

  lemma CoreTakeStep(s: State, st: Step)
    requires Core(s) && ThreadEnabled(s, st) && (st.TakeSlot? || st.TakeCell?)
    ensures Core(ThreadApply(s, st))
  {
    hide Hosting, Queueing, Binding, Placing, Waking, Logging, Tidy;
    TidyOf(s, st.t);
    var th := s.thr[st.t];
    var p := if st.TakeSlot? then Slot(th.e, th.pc.i) else Direct(th.op.d);
    if p in s.slots {
      CoreTake(s, st.t, p, if st.TakeSlot? && th.op.Cancel? then Marking else ResumeLoad);
    } else {
      CoreThread(s, st.t, ThreadApply(s, st).thr[st.t]);
    }
  }

  lemma CoreLoadStatus(s: State, t: nat)
    requires Core(s) && ThreadEnabled(s, LoadStatus(t))
    ensures Core(ThreadApply(s, LoadStatus(t)))
  {
    hide Hosting, Queueing, Binding, Placing, Waking, Logging, Tidy;
    TidyOf(s, t);
    Resuming(s, t);
    CoreThread(s, t, ThreadApply(s, LoadStatus(t)).thr[t]);
  }

  lemma CollectedTidy(s: State, th: Thread)
    requires TidyThread(th) && th.pc == ResumeReady
    ensures TidyThread(Collect(s, th))
  {
  }

  lemma CollectedHand(s: State, th: Thread)
    requires th.out == multiset{}
    ensures HandOf(Collect(s, th)) == Hand(Nothing, HandOf(th).owed + multiset{th.hold})
  {
    var x := multiset{th.hold};
    assert th.hi + x + th.lo == th.hi + th.lo + x && th.hi + (th.lo + x) == th.hi + th.lo + x;
  }

  lemma CoreCasReady(s: State, t: nat)
    requires Core(s) && ThreadEnabled(s, CasReady(t))
    requires s.fib[s.fiberOf[s.thr[t].hold.task]].status == Suspended
    ensures Core(ThreadApply(s, CasReady(t)))
  {
    hide Hosting, Queueing, Binding, Placing, Waking, Logging, Tidy;
    TidyOf(s, t);
    Resuming(s, t);
    var i := s.fiberOf[s.thr[t].hold.task];
    var f := s.fib[i].(status := Ready, tok := Buffered(t));
    CurrentRec(s, i);
    Touch(s.fib, s.wrk, i, f);
    QueueingTouch(s.fib, s.ready, s.pool, i, f);
    BindingTouch(s.fib, s.fiberOf, i, f);
    PlacingTouch(s.fib, s.built, s.owner, i, f);
    WakingBuffer(s.fib, s.fiberOf, s.slots, Hands(s.thr), i, f, t);
    LoggingStep(s.fib, s.hist, i, f, s.hist[f.ticket]);
    assert s.hist[f.ticket := s.hist[f.ticket]] == s.hist;
    var th := Collect(s, s.thr[t]);
    CollectedTidy(s, s.thr[t]);
    CollectedHand(s, s.thr[t]);
    HandsUpdate(s.thr, t, th);
    TidyUpdate(s.thr, t, th);
  }

  lemma CoreCasSignal(s: State, t: nat)
    requires Core(s) && ThreadEnabled(s, CasSignal(t))
    ensures Core(ThreadApply(s, CasSignal(t)))
  {
    hide Hosting, Queueing, Binding, Placing, Waking, Logging, Tidy;
    TidyOf(s, t);
    Resuming(s, t);
    var i := s.fiberOf[s.thr[t].hold.task];
    if s.fib[i].status == WantsSuspend {
      var f := s.fib[i].(status := SuspendSignaled, tok := Signalled);
      CurrentRec(s, i);
      Touch(s.fib, s.wrk, i, f);
      QueueingTouch(s.fib, s.ready, s.pool, i, f);
      BindingTouch(s.fib, s.fiberOf, i, f);
      PlacingTouch(s.fib, s.built, s.owner, i, f);
      WakingDrop(s.fib, s.fiberOf, s.slots, Hands(s.thr), i, f, t);
      LoggingStep(s.fib, s.hist, i, f, s.hist[f.ticket]);
      assert s.hist[f.ticket := s.hist[f.ticket]] == s.hist;
      var th := After(s.thr[t]);
      HandsUpdate(s.thr, t, th);
      TidyUpdate(s.thr, t, th);
    } else {
      CoreThread(s, t, s.thr[t].(pc := ResumeLoad));
    }
  }

  // The fiber of a waiter a thread still has to re-queue.
  lemma Requeuing(s: State, t: nat, x: Waiter)
    requires Core(s) && t in s.thr && x in HandOf(s.thr[t]).owed
    ensures x.task in s.fiberOf && s.fiberOf[x.task] in s.fib
    ensures var i := s.fiberOf[x.task]; s.fib[i].tok == Buffered(t) && Me(s.fib[i]) == x && FiberOk(s.fib[i], i, s.wrk)
  {
    hide Queueing, Binding, Placing, Logging, Tidy;
    assert Hands(s.thr)[t] == HandOf(s.thr[t]);
  }

  lemma Delivered(th: Thread, x: Waiter)
    requires TidyThread(th) && th.pc.Flush? && x in th.out
    ensures TidyThread(th.(out := th.out - multiset{x}))
    ensures HandOf(th.(out := th.out - multiset{x})) == Hand(Nothing, HandOf(th).owed - multiset{x})
  {
    assert th.hi + th.lo + (th.out - multiset{x}) == th.hi + th.lo + th.out - multiset{x};
  }

  lemma CoreRequeue(s: State, t: nat, x: Waiter)
    requires Core(s) && ThreadEnabled(s, Requeue(t, x))
    ensures Core(ThreadApply(s, Requeue(t, x)))
  {
    hide Hosting, Queueing, Binding, Placing, Waking, Logging, Tidy;
    TidyOf(s, t);
    Requeuing(s, t, x);
    var i := s.fiberOf[x.task];
    var f := s.fib[i].(tok := NoToken, loc := InQueue);
    CurrentRec(s, i);
    Touch(s.fib, s.wrk, i, f);
    QueueingPush(s.fib, s.ready, s.pool, i, f);
    BindingTouch(s.fib, s.fiberOf, i, f);
    PlacingTouch(s.fib, s.built, s.owner, i, f);
    WakingRequeue(s.fib, s.fiberOf, s.slots, Hands(s.thr), i, f, t);
    LoggingStep(s.fib, s.hist, i, f, s.hist[f.ticket].(pushed := s.hist[f.ticket].pushed + 1));
    var th := s.thr[t].(out := s.thr[t].out - multiset{x});
    Delivered(s.thr[t], x);
    HandsUpdate(s.thr, t, th);
    TidyUpdate(s.thr, t, th);
  }

  // A thread that read SUSPENDED finds it again: ResumeQueueless gives up if this CAS fails, so a
  // failure here would lose the wake.
  ghost predicate Firm(s: State)
  {
    forall t :: t in s.thr && s.thr[t].pc == ResumeReady ==>
      Deref(s, s.thr[t]) && s.fib[s.fiberOf[s.thr[t].hold.task]].status == Suspended
  }

  lemma ThreadCore(s: State, st: Step)
    requires Core(s) && Firm(s) && ThreadEnabled(s, st)
    ensures Core(ThreadApply(s, st))
  {
    hide Hosting, Queueing, Binding, Placing, Waking, Logging, Tidy;
    if st.TakeSlot? || st.TakeCell? { CoreTakeStep(s, st); }
    else if st.LoadStatus? { CoreLoadStatus(s, st.t); }
    else if st.CasReady? { CoreCasReady(s, st.t); }
    else if st.CasSignal? { CoreCasSignal(s, st.t); }
    else if st.Requeue? { CoreRequeue(s, st.t, st.x); }
    else if st.Begin? { CoreBegin(s, st.t, st.op, st.e); }
    else if st.NextBatch? { CoreNextBatch(s, st.t); }
    else if st.LoadWord? { CoreLoadWord(s, st.t); }
    else if st.MarkCancelled? { CoreMarkCancelled(s, st.t); }
    else { CoreScan(s, st); }
  }

  lemma FirmTouch(s: State, s': State, who: set<nat>, j: nat)
    requires Core(s) && Firm(s) && j in s.fib && j in s'.fib && s'.fib == s.fib[j := s'.fib[j]]
    requires s'.fiberOf == s.fiberOf || s.fib[j].status != Suspended
    requires forall k :: k in s.fiberOf && s.fiberOf[k] != j ==> k in s'.fiberOf && s'.fiberOf[k] == s.fiberOf[k]
    requires forall t :: t in s'.thr ==> if t in who then s'.thr[t].pc != ResumeReady else t in s.thr && s'.thr[t] == s.thr[t]
    requires s'.fib[j].status == s.fib[j].status || s.fib[j].status != Suspended || (s.fib[j].tok.Held? && s.fib[j].tok.t in who)
    ensures Firm(s')
  {
    hide Hosting, Queueing, Binding, Placing, Waking, Logging, Tidy;
    forall t | t in s'.thr && s'.thr[t].pc == ResumeReady
      ensures Deref(s', s'.thr[t]) && s'.fib[s'.fiberOf[s'.thr[t].hold.task]].status == Suspended
    {
      Resuming(s, t);
    }
  }

  lemma FiberFirm(s: State, st: Step)
    requires Core(s) && Firm(s) && FiberEnabled(s, st)
    ensures Firm(FiberApply(s, st))
  {
    hide Hosting, Queueing, Binding, Placing, Waking, Logging, Tidy;
    Hosted(s, st.w);
    var s' := FiberApply(s, st);
    assert s'.fib == s.fib[s.wrk[st.w].f := s'.fib[s.wrk[st.w].f]];
    hide FiberApply;
    FirmTouch(s, s', {}, s.wrk[st.w].f);
  }

  lemma FirmPick(s: State, st: Step)
    requires Core(s) && Firm(s) && WorkerEnabled(s, st) && (st.Acquire? || st.Pick?)
    ensures Firm(WorkerApply(s, st))
  {
    hide Hosting, Queueing, Binding, Placing, Waking, Logging, Tidy;
    Resting(s, st.f);
    var s' := WorkerApply(s, st);
    hide Firm;
    FirmTouch(s, s', {}, st.f);
  }

  lemma FirmWork(s: State, st: Step)
    requires Core(s) && Firm(s) && WorkerEnabled(s, st) && !st.Acquire? && !st.Pick?
    ensures Firm(WorkerApply(s, st))
  {
    hide Core, Firm, WorkerApply;
    Hosted(s, st.w);
    var s' := WorkerApply(s, st);
    var j := s.wrk[st.w].f;
    WorkFrame(s, st, s', j);
    FirmTouch(s, s', {}, j);
  }

  lemma WorkFrame(s: State, st: Step, s': State, j: nat)
    requires WorkerEnabled(s, st) && !st.Acquire? && !st.Pick? && s' == WorkerApply(s, st) && j == s.wrk[st.w].f
    requires s.fib[j].task in s.fiberOf ==> s.fiberOf[s.fib[j].task] == j
    ensures s'.thr == s.thr && j in s'.fib && s'.fib == s.fib[j := s'.fib[j]]
    ensures forall k :: k in s.fiberOf && s.fiberOf[k] != j ==> k in s'.fiberOf && s'.fiberOf[k] == s.fiberOf[k]
  {
    if st.Inspect? { InspectFrame(s, st.w, s', j); } else if st.Park? {} else { WorkOn(s, st, s', j); }
  }

  lemma InspectFrame(s: State, w: nat, s': State, j: nat)
    requires WorkerEnabled(s, Inspect(w)) && s' == WorkerApply(s, Inspect(w)) && j == s.wrk[w].f
    requires s.fib[j].task in s.fiberOf ==> s.fiberOf[s.fib[j].task] == j
    ensures s'.thr == s.thr && j in s'.fib && s'.fib == s.fib[j := s'.fib[j]]
    ensures forall k :: k in s.fiberOf && s.fiberOf[k] != j ==> k in s'.fiberOf && s'.fiberOf[k] == s.fiberOf[k]
  {
    assert s.fib[j := s.fib[j]] == s.fib;
  }

  lemma WorkOn(s: State, st: Step, s': State, j: nat)
    requires WorkerEnabled(s, st) && (st.SwitchIn? || st.YieldReady? || st.WakeReady? || st.Push?)
    requires s' == WorkerApply(s, st) && j == s.wrk[st.w].f
    ensures s'.thr == s.thr && j in s'.fib && s'.fib == s.fib[j := s'.fib[j]] && s'.fiberOf == s.fiberOf
  {
    if st.SwitchIn? {} else if st.YieldReady? {} else if st.WakeReady? {} else {}
  }

  // A CAS on the status of the fiber the thread holds.
  lemma FirmCas(s: State, t: nat, st: Step)
    requires Core(s) && Firm(s) && ThreadEnabled(s, st) && (st == CasReady(t) || st == CasSignal(t))
    ensures Firm(ThreadApply(s, st))
  {
    hide Hosting, Queueing, Binding, Placing, Waking, Logging, Tidy;
    Resuming(s, t);
    var j := s.fiberOf[s.thr[t].hold.task];
    var s' := ThreadApply(s, st);
    assert s'.fib == s.fib[j := s'.fib[j]] && s'.thr == s.thr[t := s'.thr[t]] && s'.thr[t].pc != ResumeReady;
    hide Firm;
    FirmTouch(s, s', {t}, j);
  }

  lemma FirmRequeue(s: State, t: nat, x: Waiter)
    requires Core(s) && Firm(s) && ThreadEnabled(s, Requeue(t, x))
    ensures Firm(ThreadApply(s, Requeue(t, x)))
  {
    hide Hosting, Queueing, Binding, Placing, Waking, Logging, Tidy, Firm;
    Requeuing(s, t, x);
    FirmTouch(s, ThreadApply(s, Requeue(t, x)), {t}, s.fiberOf[x.task]);
  }

  lemma FirmTakeStep(s: State, st: Step)
    requires Core(s) && Firm(s) && ThreadEnabled(s, st) && (st.TakeSlot? || st.TakeCell?)
    ensures Firm(ThreadApply(s, st))
  {
    hide Hosting, Queueing, Binding, Placing, Waking, Logging, Tidy;
    var th := s.thr[st.t];
    var p := if st.TakeSlot? then Slot(th.e, th.pc.i) else Direct(th.op.d);
    if p in s.slots {
      FirmTake(s, st.t, p, if st.TakeSlot? && th.op.Cancel? then Marking else ResumeLoad);
    }
  }

  lemma ThreadFirm(s: State, st: Step)
    requires Core(s) && Firm(s) && ThreadEnabled(s, st)
    ensures Firm(ThreadApply(s, st))
  {
    hide Hosting, Queueing, Binding, Placing, Waking, Logging, Tidy, Word, Registered, FinalBatch;
    if st.TakeSlot? || st.TakeCell? { FirmTakeStep(s, st); }
    else if st.CasReady? || st.CasSignal? { FirmCas(s, st.t, st); }
    else if st.Requeue? { FirmRequeue(s, st.t, st.x); }
    else if st.LoadStatus? { FirmLoad(s, st); }
    else if st.LoadWord? { FirmLoadWord(s, st.t); }
    else if st.ExchangeWord? || st.ClaimBit? || st.NextWord? { FirmScan(s, st); }
    else { FirmIdle(s, st); }
  }

  lemma FirmLoad(s: State, st: Step)
    requires Firm(s) && ThreadEnabled(s, st) && st.LoadStatus?
    ensures Firm(ThreadApply(s, st))
  {
    hide Firm;
    FirmThread(s, ThreadApply(s, st), st.t);
  }

  lemma FirmSet(s: State, t: nat, th: Thread)
    requires Firm(s) && th.pc != ResumeReady
    ensures Firm(SetThread(s, t, th))
  {
  }

  lemma FirmLoadWord(s: State, t: nat)
    requires Firm(s) && ThreadEnabled(s, LoadWord(t))
    ensures Firm(ThreadApply(s, LoadWord(t)))
  {
    hide Word, Firm;
    var th := s.thr[t];
    if s.count <= 64 * th.w { FirmSet(s, t, th.(pc := if th.op.One? then Done(false) else Flush(true))); }
    else if !th.op.All? { FirmSet(s, t, th.(bits := Word(s, th.e, th.w), pc := Loop)); }
    else if Word(s, th.e, th.w) == {} { FirmSet(s, t, th.(w := th.w + 1)); }
    else { FirmSet(s, t, th.(pc := Exchange)); }
  }

  lemma FirmOcc(s: State, occ: set<Place>)
    requires Firm(s)
    ensures Firm(s.(occ := occ))
  {
  }

  lemma FirmScan(s: State, st: Step)
    requires Firm(s) && ThreadEnabled(s, st) && (st.ExchangeWord? || st.ClaimBit? || st.NextWord?)
    ensures Firm(ThreadApply(s, st))
  {
    hide Word, Firm;
    var s' := ThreadApply(s, st);
    var th := s.thr[st.t];
    if st.ExchangeWord? { FirmSet(s, st.t, th.(bits := Word(s, th.e, th.w), pc := Loop)); }
    else if st.NextWord? { FirmSet(s, st.t, th.(w := th.w + 1, pc := Load)); }
    else if th.op.All? { FirmSet(s, st.t, th.(bits := th.bits - {st.b}, pc := Claimed(st.b))); }
    else { FirmSet(s, st.t, th.(bits := th.bits - {st.b}, pc := if Slot(th.e, st.b) in s.occ then Claimed(st.b) else Loop)); }
    FirmOcc(SetThread(s, st.t, s'.thr[st.t]), s'.occ);
  }

  lemma FirmIdle(s: State, st: Step)
    requires Firm(s) && ThreadEnabled(s, st) && (st.Begin? || st.MarkCancelled? || st.NextBatch?)
    ensures Firm(ThreadApply(s, st))
  {
    hide Registered, Firm;
    FirmThread(s, ThreadApply(s, st), st.t);
  }

  lemma FirmThread(s: State, s': State, t: nat)
    requires Firm(s) && t in s'.thr
    requires s'.fib == s.fib && s'.fiberOf == s.fiberOf && s'.thr == s.thr[t := s'.thr[t]]
    requires s'.thr[t].pc == ResumeReady ==> Deref(s, s'.thr[t]) && s.fib[s.fiberOf[s'.thr[t].hold.task]].status == Suspended
    ensures Firm(s')
  {
  }

  lemma FirmTake(s: State, t: nat, p: Place, pc: ThreadPc)
    requires Core(s) && Firm(s) && t in s.thr && p in s.slots && pc != ResumeReady
    ensures Firm(Take(s, t, p, pc))
  {
    hide Hosting, Queueing, Binding, Placing, Waking, Logging, Tidy;
    Published(s, p);
    FirmTouch(s, Take(s, t, p, pc), {t}, s.fiberOf[s.slots[p].task]);
  }
}
