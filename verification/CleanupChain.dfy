/**
 The cleanup chain of a dead fiber: it is linked, through its own `cleanupNext`, onto the chain of one
 holder that it owes, that holder's drain runs the release and takes the next creditor, and whoever
 finds no creditor left returns the fiber to the pool.

 Any number of fibers, of drainers and of holders; one step is one access to shared memory.  A word of
 the creditor mask is the set of its set bits.  The history is `chain` and `rest` (the lists the
 pointers spell), `loc`, `owed` (the creditors noted in this life) and `released`.
 */
module CleanupChain {

  const WORD_BITS: nat := 64
  const CREDITOR_WORDS: nat := 6

  datatype Ptr = Null | To(f: nat)

  // Where to go on after a hop: nowhere after a death, or to the next fiber of holder h's list.
  datatype Ctx = Top | Draining(h: nat, nxt: Ptr)

  datatype Pc =
    | Rest
    | Walk(h: nat, p: Ptr)                                        // DrainHolder
    | Releasing(f: nat, h: nat, nxt: Ptr)
    | Scan(f: nat, w: nat, ctx: Ctx)                              // TakeCreditor
    | Take(f: nat, w: nat, cur: set<nat>, ctx: Ctx)
    | Push(f: nat, target: nat, ctx: Ctx)                         // Deliver
    | Hang(f: nat, target: nat, head: Ptr, ctx: Ctx)
    | Swap(f: nat, target: nat, head: Ptr, ctx: Ctx)
    | Recycling(f: nat, ctx: Ctx)                                 // ReturnToPool

  datatype Life = Pooled | Running | Dead

  datatype Loc = Away | OnChain(h: nat) | InList(t: nat) | InHand(t: nat)

  // `creditors` and `status`, and the history of one fiber.
  datatype Fiber = Fiber(cred: set<nat>, life: Life, loc: Loc, owed: set<nat>, released: set<nat>)

  datatype State = State(
    inbound: map<nat, Ptr>,
    next: map<nat, Ptr>,            // cleanupNext
    fib: map<nat, Fiber>,
    pc: map<nat, Pc>,
    chain: map<nat, seq<nat>>,
    rest: map<nat, seq<nat>>)

  datatype Step =
    | Start(f: nat) | Note(f: nat, h: nat) | Die(t: nat, f: nat)
    | TakeAll(t: nat, h: nat) | WalkNext(t: nat) | Release(t: nat)
    | ScanWord(t: nat) | TakeBit(t: nat) | LoadHead(t: nat) | StoreNext(t: nat) | SwapHead(t: nat) | Recycle(t: nat)

  predicate KnownFiber(s: State, f: nat) { f in s.next && f in s.fib }

  predicate KnownThread(s: State, t: nat) { t in s.pc && t in s.rest }

  predicate KnownHolder(s: State, h: nat) { h in s.inbound && h in s.chain }

  // One word of a fiber's creditor mask.
  function WordOf(cred: set<nat>, w: nat): (r: set<nat>) { set h | h in cred && h / WORD_BITS == w }

  predicate IsLeast(c: set<nat>, h: nat) { h in c && forall k :: k in c ==> h <= k }

  // The lowest set bit.
  function Least(c: set<nat>): (h: nat)
    requires c != {}
    ensures IsLeast(c, h)
  {
    HasLeast(c);
    var h: nat :| IsLeast(c, h);
    h
  }

  lemma HasLeast(c: set<nat>)
    requires c != {}
    ensures exists h: nat :: IsLeast(c, h)
  {
    var x :| x in c;
    var d := c - {x};
    assert forall k :: k in c ==> k == x || k in d;
    if d == {} {
      assert IsLeast(c, x);
    } else {
      HasLeast(d);
      var h: nat :| IsLeast(d, h);
      assert IsLeast(c, if h <= x then h else x);
    }
  }

  predicate FiberEnabled(s: State, st: Step)
  {
    match st
    case Start(f) => KnownFiber(s, f) && s.fib[f].life.Pooled?
    case Note(f, h) => KnownFiber(s, f) && s.fib[f].life.Running? && KnownHolder(s, h)
    case Die(t, f) => KnownFiber(s, f) && s.fib[f].life.Running? && KnownThread(s, t) && s.pc[t].Rest?
    case _ => false
  }

  predicate DrainEnabled(s: State, st: Step)
  {
    match st
    case TakeAll(t, h) => KnownThread(s, t) && s.pc[t].Rest? && KnownHolder(s, h)
    case WalkNext(t) => KnownThread(s, t) && s.pc[t].Walk? && (s.pc[t].p.To? ==> KnownFiber(s, s.pc[t].p.f))
    case Release(t) => KnownThread(s, t) && s.pc[t].Releasing? && KnownFiber(s, s.pc[t].f)
    case _ => false
  }

  predicate HopEnabled(s: State, st: Step)
  {
    match st
    case ScanWord(t) => KnownThread(s, t) && s.pc[t].Scan? && KnownFiber(s, s.pc[t].f)
    case TakeBit(t) => KnownThread(s, t) && s.pc[t].Take? && s.pc[t].cur != {} && KnownFiber(s, s.pc[t].f)
    case LoadHead(t) => KnownThread(s, t) && s.pc[t].Push? && KnownHolder(s, s.pc[t].target)
    case StoreNext(t) => KnownThread(s, t) && s.pc[t].Hang? && KnownFiber(s, s.pc[t].f)
    case SwapHead(t) => KnownThread(s, t) && s.pc[t].Swap? && KnownHolder(s, s.pc[t].target) && KnownFiber(s, s.pc[t].f)
    case Recycle(t) => KnownThread(s, t) && s.pc[t].Recycling? && KnownFiber(s, s.pc[t].f)
    case _ => false
  }

  predicate Enabled(s: State, st: Step) { FiberEnabled(s, st) || DrainEnabled(s, st) || HopEnabled(s, st) }

  function At(s: State, t: nat, p: Pc): (s': State) { s.(pc := s.pc[t := p]) }

  function GoOn(ctx: Ctx): (p: Pc) { if ctx.Top? then Rest else Walk(ctx.h, ctx.nxt) }

  function FiberApply(s: State, st: Step): (s': State)
    requires FiberEnabled(s, st)
  {
    match st
    case Start(f) =>
      s.(fib := s.fib[f := Fiber({}, Running, Away, {}, {})])
    case Note(f, h) =>
      if h >= CREDITOR_WORDS * WORD_BITS then s
      else s.(fib := s.fib[f := s.fib[f].(cred := s.fib[f].cred + {h}, owed := s.fib[f].owed + {h})])
    case Die(t, f) =>
      At(s, t, Scan(f, 0, Top)).(fib := s.fib[f := s.fib[f].(life := Dead, loc := InHand(t))])
  }

  function ToList(fib: map<nat, Fiber>, v: seq<nat>, to: Loc): (r: map<nat, Fiber>)
  {
    map f | f in fib :: if f in v then fib[f].(loc := to) else fib[f]
  }

  function DrainApply(s: State, st: Step): (s': State)
    requires DrainEnabled(s, st)
  {
    match st
    case TakeAll(t, h) =>
      At(s, t, Walk(h, s.inbound[h]))
        .(inbound := s.inbound[h := Null], chain := s.chain[h := []], rest := s.rest[t := s.chain[h]],
          fib := ToList(s.fib, s.chain[h], InList(t)))
    case WalkNext(t) =>
      if s.pc[t].p.Null? then At(s, t, Rest)
      else
        var f := s.pc[t].p.f;
        At(s, t, Releasing(f, s.pc[t].h, s.next[f]))
          .(next := s.next[f := Null], rest := s.rest[t := if s.rest[t] == [] then [] else s.rest[t][1..]],
            fib := s.fib[f := s.fib[f].(loc := InHand(t))])
    case Release(t) =>
      var p := s.pc[t];
      At(s, t, Scan(p.f, 0, Draining(p.h, p.nxt))).(fib := s.fib[p.f := s.fib[p.f].(released := s.fib[p.f].released + {p.h})])
  }

  function HopApply(s: State, st: Step): (s': State)
    requires HopEnabled(s, st)
  {
    var p := s.pc[st.t];
    match st
    case ScanWord(t) =>
      if p.w >= CREDITOR_WORDS then At(s, t, Recycling(p.f, p.ctx))
      else if WordOf(s.fib[p.f].cred, p.w) == {} then At(s, t, Scan(p.f, p.w + 1, p.ctx))
      else At(s, t, Take(p.f, p.w, WordOf(s.fib[p.f].cred, p.w), p.ctx))
    case TakeBit(t) =>
      var now := WordOf(s.fib[p.f].cred, p.w);
      if now == p.cur then
        At(s, t, Push(p.f, Least(p.cur), p.ctx)).(fib := s.fib[p.f := s.fib[p.f].(cred := s.fib[p.f].cred - {Least(p.cur)})])
      else if now == {} then At(s, t, Scan(p.f, p.w + 1, p.ctx))
      else At(s, t, Take(p.f, p.w, now, p.ctx))
    case LoadHead(t) => At(s, t, Hang(p.f, p.target, s.inbound[p.target], p.ctx))
    case StoreNext(t) => At(s, t, Swap(p.f, p.target, p.head, p.ctx)).(next := s.next[p.f := p.head])
    case SwapHead(t) =>
      if s.inbound[p.target] == p.head then
        At(s, t, GoOn(p.ctx))
          .(inbound := s.inbound[p.target := To(p.f)], chain := s.chain[p.target := [p.f] + s.chain[p.target]],
            fib := s.fib[p.f := s.fib[p.f].(loc := OnChain(p.target))])
      else At(s, t, Hang(p.f, p.target, s.inbound[p.target], p.ctx))
    case Recycle(t) =>
      if s.fib[p.f].life.Dead? then At(s, t, GoOn(p.ctx)).(fib := s.fib[p.f := s.fib[p.f].(life := Pooled, cred := {}, loc := Away)])
      else At(s, t, GoOn(p.ctx))
  }

  function Apply(s: State, st: Step): (s': State)
    requires Enabled(s, st)
  {
    if FiberEnabled(s, st) then FiberApply(s, st)
    else if DrainEnabled(s, st) then DrainApply(s, st)
    else HopApply(s, st)
  }
}
