/**
 What every reachable state of the cleanup chain keeps: the pointers spell the lists, a dead fiber is
 in exactly one place, and what it owed in this life is what is still in its mask, the one release
 under way, and what has been released, without overlap.
 */
module CleanupChainSafety {
  import opened CleanupChain

  // ---- lists ----------------------------------------------------------------------------------------

  function First(v: seq<nat>): (p: Ptr) { if v == [] then Null else To(v[0]) }

  ghost predicate Spelt(next: map<nat, Ptr>, p: Ptr, v: seq<nat>) {
    && p == First(v)
    && (forall i, j :: 0 <= i < j < |v| ==> v[i] != v[j])
    && (forall i :: 0 <= i < |v| ==> v[i] in next && next[v[i]] == First(v[i + 1..]))
  }

  lemma SpeltFrame(next: map<nat, Ptr>, f: nat, q: Ptr, p: Ptr, v: seq<nat>)
    requires Spelt(next, p, v) && f !in v
    ensures Spelt(next[f := q], p, v)
  {
    assert forall i :: 0 <= i < |v| ==> v[i] in v;
  }

  lemma SpeltPush(next: map<nat, Ptr>, p: Ptr, v: seq<nat>, f: nat)
    requires Spelt(next, p, v) && f !in v && f in next && next[f] == p
    ensures Spelt(next, To(f), [f] + v)
  {
    var u := [f] + v;
    forall i | 0 <= i < |u|
      ensures u[i] in next && next[u[i]] == First(u[i + 1..])
    {
      if i == 0 {
        assert u[1..] == v;
      } else {
        assert u[i] == v[i - 1] && u[i + 1..] == v[i..];
      }
    }
  }

  lemma SpeltPop(next: map<nat, Ptr>, p: Ptr, v: seq<nat>)
    requires Spelt(next, p, v) && v != []
    ensures p == To(v[0]) && v[0] in next && Spelt(next, next[v[0]], v[1..]) && v[0] !in v[1..]
  {
    var u := v[1..];
    forall i | 0 <= i < |u|
      ensures u[i] in next && next[u[i]] == First(u[i + 1..])
    {
      assert u[i] == v[i + 1] && u[i + 1..] == v[i + 2..];
    }
  }

  ghost predicate Chains(inbound: map<nat, Ptr>, next: map<nat, Ptr>, chain: map<nat, seq<nat>>) {
    inbound.Keys == chain.Keys && forall h :: h in chain ==> Spelt(next, inbound[h], chain[h])
  }

  function NextOf(p: Pc): (q: Ptr)
  {
    match p
    case Rest => Null
    case Walk(_, q) => q
    case Releasing(_, _, q) => q
    case Scan(_, _, ctx) => NextIn(ctx)
    case Take(_, _, _, ctx) => NextIn(ctx)
    case Push(_, _, ctx) => NextIn(ctx)
    case Hang(_, _, _, ctx) => NextIn(ctx)
    case Swap(_, _, _, ctx) => NextIn(ctx)
    case Recycling(_, ctx) => NextIn(ctx)
  }

  function NextIn(ctx: Ctx): (q: Ptr) { if ctx.Top? then Null else ctx.nxt }

  ghost predicate Rests(pc: map<nat, Pc>, next: map<nat, Ptr>, rest: map<nat, seq<nat>>) {
    pc.Keys == rest.Keys && forall t :: t in rest ==> Spelt(next, NextOf(pc[t]), rest[t])
  }

  // ---- places -----------------------------------------------------------------------------------------

  function Hand(p: Pc): (r: set<nat>) { if p.Rest? || p.Walk? then {} else {p.f} }

  // Every fiber is in one place, and every place is listed.
  ghost predicate Locs(fib: map<nat, Fiber>, pc: map<nat, Pc>, chain: map<nat, seq<nat>>, rest: map<nat, seq<nat>>) {
    && (forall h, f :: h in chain ==> (f in chain[h] <==> f in fib && fib[f].loc == OnChain(h)))
    && (forall t, f :: t in rest ==> (f in rest[t] <==> f in fib && fib[f].loc == InList(t)))
    && (forall t, f :: t in pc ==> (f in Hand(pc[t]) <==> f in fib && fib[f].loc == InHand(t)))
    && (forall f :: f in fib && fib[f].loc.OnChain? ==> fib[f].loc.h in chain)
    && (forall f :: f in fib && (fib[f].loc.InList? || fib[f].loc.InHand?) ==> fib[f].loc.t in pc)
  }

  // ---- debts --------------------------------------------------------------------------------------------

  // The holder whose list a thread is walking.
  function HolderOf(p: Pc): (r: set<nat>)
  {
    match p
    case Rest => {}
    case Walk(h, _) => {h}
    case Releasing(_, h, _) => {h}
    case Scan(_, _, ctx) => HolderIn(ctx)
    case Take(_, _, _, ctx) => HolderIn(ctx)
    case Push(_, _, ctx) => HolderIn(ctx)
    case Hang(_, _, _, ctx) => HolderIn(ctx)
    case Swap(_, _, _, ctx) => HolderIn(ctx)
    case Recycling(_, ctx) => HolderIn(ctx)
  }

  function HolderIn(ctx: Ctx): (r: set<nat>) { if ctx.Top? then {} else {ctx.h} }

  // The release under way for the fiber in a thread's hand.
  function Carried(p: Pc): (r: set<nat>)
  {
    if p.Releasing? then {p.h} else if p.Push? || p.Hang? || p.Swap? then {p.target} else {}
  }

  function Pending(at: Loc, pc: map<nat, Pc>): (r: set<nat>)
  {
    match at
    case Away => {}
    case OnChain(h) => {h}
    case InList(t) => if t in pc then HolderOf(pc[t]) else {}
    case InHand(t) => if t in pc then Carried(pc[t]) else {}
  }

  ghost predicate DebtOk(d: Fiber, pend: set<nat>) {
    && (d.life.Dead? <==> !d.loc.Away?)
    && (d.life.Running? ==> d.owed == d.cred && d.released == {})
    && (d.life.Dead? ==> d.owed == d.cred + pend + d.released && d.cred !! pend && d.cred !! d.released && pend !! d.released)
  }

  ghost predicate Debts(fib: map<nat, Fiber>, pc: map<nat, Pc>) {
    forall f :: f in fib ==> DebtOk(fib[f], Pending(fib[f].loc, pc))
  }

  // Creditors have a bit in the mask and a chain.
  ghost predicate Masks(fib: map<nat, Fiber>, inbound: map<nat, Ptr>) {
    forall f :: f in fib ==> MaskOk(fib[f].cred, inbound)
  }

  ghost predicate MaskOk(cred: set<nat>, inbound: map<nat, Ptr>) {
    forall h :: h in cred ==> h < CREDITOR_WORDS * WORD_BITS && h in inbound
  }

  // How far the scan of the mask has come, and what a thread about to push has prepared.
  ghost predicate PcOk(fib: map<nat, Fiber>, next: map<nat, Ptr>, inbound: map<nat, Ptr>, p: Pc) {
    && (p.Scan? || p.Take? ==> p.f in fib && forall h :: h in fib[p.f].cred ==> h / WORD_BITS >= p.w)
    && (p.Take? ==> p.cur != {})
    && (p.Recycling? ==> p.f in fib && fib[p.f].cred == {})
    && (p.Push? || p.Hang? || p.Swap? ==> p.target in inbound)
    && (p.Swap? ==> p.f in next && next[p.f] == p.head)
    && (forall h :: h in HolderOf(p) ==> h in inbound)
  }

  ghost predicate Pcs(fib: map<nat, Fiber>, next: map<nat, Ptr>, inbound: map<nat, Ptr>, pc: map<nat, Pc>) {
    forall t :: t in pc ==> PcOk(fib, next, inbound, pc[t])
  }

  ghost predicate Inv(s: State) {
    && Chains(s.inbound, s.next, s.chain) && Rests(s.pc, s.next, s.rest)
    && Locs(s.fib, s.pc, s.chain, s.rest) && Debts(s.fib, s.pc)
    && Masks(s.fib, s.inbound) && Pcs(s.fib, s.next, s.inbound, s.pc) && s.fib.Keys == s.next.Keys
  }

  // ---- a thread moves its pc ------------------------------------------------------------------------------

  lemma PcRests(pc: map<nat, Pc>, next: map<nat, Ptr>, rest: map<nat, seq<nat>>, t: nat, p: Pc)
    requires Rests(pc, next, rest) && t in pc && NextOf(p) == NextOf(pc[t])
    ensures Rests(pc[t := p], next, rest)
  {
    hide Spelt, NextOf;
  }

  lemma PcLocs(fib: map<nat, Fiber>, pc: map<nat, Pc>, chain: map<nat, seq<nat>>, rest: map<nat, seq<nat>>, t: nat, p: Pc)
    requires Locs(fib, pc, chain, rest) && t in pc && Hand(p) == Hand(pc[t])
    ensures Locs(fib, pc[t := p], chain, rest)
  {
    hide Hand;
  }

  // The debts of all fibers but f, when t moves on and f with it.
  lemma OtherDebts(s: State, t: nat, p: Pc, f: nat, d: Fiber)
    requires Debts(s.fib, s.pc) && Locs(s.fib, s.pc, s.chain, s.rest) && t in s.pc && t in s.rest && f in s.fib
    requires Hand(s.pc[t]) <= {f} && (HolderOf(p) == HolderOf(s.pc[t]) || s.rest[t] == [] || s.rest[t] == [f])
    requires DebtOk(d, Pending(d.loc, s.pc[t := p]))
    ensures Debts(s.fib[f := d], s.pc[t := p])
  {
    hide DebtOk, HolderOf, Carried;
    var fib' := s.fib[f := d];
    var pc' := s.pc[t := p];
    forall g | g in fib'
      ensures DebtOk(fib'[g], Pending(fib'[g].loc, pc'))
    {
      if g != f {
        assert Pending(s.fib[g].loc, pc') == Pending(s.fib[g].loc, s.pc);
      }
    }
  }

  lemma PcPcs(fib: map<nat, Fiber>, next: map<nat, Ptr>, inbound: map<nat, Ptr>, pc: map<nat, Pc>, t: nat, p: Pc)
    requires Pcs(fib, next, inbound, pc) && PcOk(fib, next, inbound, p)
    ensures Pcs(fib, next, inbound, pc[t := p])
  {
    hide PcOk;
  }

  lemma RestKeys(s: State)
    requires Inv(s)
    ensures s.rest.Keys == s.pc.Keys
  {
    hide Chains, Masks, Pcs, Locs, Debts, Spelt;
  }

  lemma HandFacts(s: State, t: nat)
    requires Inv(s) && t in s.pc && Hand(s.pc[t]) != {}
    ensures t in s.rest && s.pc[t].f in s.fib && s.fib[s.pc[t].f].loc == InHand(t) && s.fib[s.pc[t].f].life.Dead?
    ensures DebtOk(s.fib[s.pc[t].f], Carried(s.pc[t])) && PcOk(s.fib, s.next, s.inbound, s.pc[t])
  {
    hide Chains, Masks, Spelt, PcOk, Carried, HolderOf;
    assert s.pc[t].f in Hand(s.pc[t]);
  }

  // t goes on with the same fiber in hand, the same list and the same release under way.
  lemma MovesOn(s: State, t: nat, p: Pc)
    requires Inv(s) && t in s.pc && Hand(s.pc[t]) != {}
    requires NextOf(p) == NextOf(s.pc[t]) && Hand(p) == Hand(s.pc[t]) && HolderOf(p) == HolderOf(s.pc[t])
    requires Carried(p) == Carried(s.pc[t]) && PcOk(s.fib, s.next, s.inbound, p)
    ensures Inv(At(s, t, p))
  {
    hide Chains, Rests, Locs, Debts, Masks, Pcs, PcOk, NextOf, HolderOf, Carried, DebtOk, Hand;
    HandOne(s.pc[t]);
    var f := s.pc[t].f;
    HandFacts(s, t);
    PcRests(s.pc, s.next, s.rest, t, p);
    PcLocs(s.fib, s.pc, s.chain, s.rest, t, p);
    PcPcs(s.fib, s.next, s.inbound, s.pc, t, p);
    OtherDebts(s, t, p, f, s.fib[f]);
    assert s.fib[f := s.fib[f]] == s.fib;
  }

  lemma HandOne(p: Pc)
    requires Hand(p) != {}
    ensures !p.Rest? && !p.Walk? && Hand(p) == {p.f}
  {
  }

  // ---- a thread and its fiber move ------------------------------------------------------------------------------

  // Nobody but t has f in hand.
  ghost predicate OnlyWith(pc: map<nat, Pc>, t: nat, f: nat) { forall u :: u in pc && u != t ==> f !in Hand(pc[u]) }

  lemma PcsMove(fib: map<nat, Fiber>, next: map<nat, Ptr>, inbound: map<nat, Ptr>, inbound': map<nat, Ptr>, pc: map<nat, Pc>,
                t: nat, p: Pc, f: nat, d: Fiber, q: Ptr)
    requires Pcs(fib, next, inbound, pc) && OnlyWith(pc, t, f) && inbound'.Keys == inbound.Keys
    requires PcOk(fib[f := d], next[f := q], inbound', p)
    ensures Pcs(fib[f := d], next[f := q], inbound', pc[t := p])
  {
    forall u | u in pc && u != t
      ensures PcOk(fib[f := d], next[f := q], inbound', pc[u])
    {
      assert PcOk(fib, next, inbound, pc[u]);
    }
  }

  lemma MasksMove(fib: map<nat, Fiber>, inbound: map<nat, Ptr>, f: nat, d: Fiber)
    requires Masks(fib, inbound) && f in fib && d.cred <= fib[f].cred
    ensures Masks(fib[f := d], inbound)
  {
  }

  lemma LocsMove(fib: map<nat, Fiber>, pc: map<nat, Pc>, chain: map<nat, seq<nat>>, rest: map<nat, seq<nat>>, t: nat, p: Pc, f: nat, d: Fiber)
    requires Locs(fib, pc, chain, rest) && t in pc && f in fib
    requires (fib[f].loc.Away? && Hand(pc[t]) == {}) || (fib[f].loc == InHand(t) && Hand(pc[t]) == {f})
    requires (d.loc.Away? && Hand(p) == {}) || (d.loc == InHand(t) && Hand(p) == {f})
    ensures Locs(fib[f := d], pc[t := p], chain, rest) && OnlyWith(pc, t, f)
  {
    hide Hand;
  }

  // t takes up, keeps or lets go of the fiber f; lists and pointers stay.
  lemma MoveInv(s: State, t: nat, p: Pc, f: nat, d: Fiber)
    requires Inv(s) && t in s.pc && f in s.fib && d.cred <= s.fib[f].cred
    requires (s.fib[f].loc.Away? && Hand(s.pc[t]) == {}) || (s.fib[f].loc == InHand(t) && Hand(s.pc[t]) == {f})
    requires (d.loc.Away? && Hand(p) == {}) || (d.loc == InHand(t) && Hand(p) == {f})
    requires NextOf(p) == NextOf(s.pc[t]) && (HolderOf(p) == HolderOf(s.pc[t]) || s.pc[t].Rest?)
    requires DebtOk(d, Pending(d.loc, s.pc[t := p])) && PcOk(s.fib[f := d], s.next, s.inbound, p)
    ensures Inv(At(s, t, p).(fib := s.fib[f := d]))
  {
    hide Chains, Rests, Locs, Debts, Masks, Pcs, PcOk, NextOf, HolderOf, DebtOk, Hand, Pending;
    RestKeys(s);
    if s.pc[t].Rest? { RestEmpty(s, t); }
    LocsMove(s.fib, s.pc, s.chain, s.rest, t, p, f, d);
    PcRests(s.pc, s.next, s.rest, t, p);
    MasksMove(s.fib, s.inbound, f, d);
    OtherDebts(s, t, p, f, d);
    assert f in s.next && s.next[f := s.next[f]] == s.next;
    PcsMove(s.fib, s.next, s.inbound, s.inbound, s.pc, t, p, f, d, s.next[f]);
  }

  lemma RestEmpty(s: State, t: nat)
    requires Inv(s) && t in s.pc && s.pc[t].Rest?
    ensures t in s.rest && s.rest[t] == []
  {
    hide Chains, Masks, Pcs, Locs, Debts;
  }

  lemma FiberFacts(s: State, f: nat)
    requires Inv(s) && f in s.fib
    ensures DebtOk(s.fib[f], Pending(s.fib[f].loc, s.pc))
  {
    hide Chains, Rests, Masks, Pcs, Locs, DebtOk;
  }

  lemma AwayOnly(s: State, f: nat)
    requires Inv(s) && f in s.fib && s.fib[f].loc.Away?
    ensures forall u :: u in s.pc ==> f !in Hand(s.pc[u])
  {
    hide Chains, Rests, Masks, Pcs, Debts;
  }

  // A fiber that is in no list and no hand changes.
  lemma AwayInv(s: State, f: nat, d: Fiber)
    requires Inv(s) && f in s.fib && s.fib[f].loc.Away? && d.loc.Away? && DebtOk(d, {})
    requires MaskOk(d.cred, s.inbound)
    ensures Inv(s.(fib := s.fib[f := d]))
  {
    hide Chains, Rests, Locs, Hand, Debts, Pcs, DebtOk, MaskOk;
    AwayOnly(s, f);
    AwayLocs(s.fib, s.pc, s.chain, s.rest, f, d);
    AwayDebts(s.fib, s.pc, f, d);
    AwayPcs(s, f, d);
  }

  lemma AwayLocs(fib: map<nat, Fiber>, pc: map<nat, Pc>, chain: map<nat, seq<nat>>, rest: map<nat, seq<nat>>, f: nat, d: Fiber)
    requires Locs(fib, pc, chain, rest) && f in fib && fib[f].loc.Away? && d.loc.Away?
    ensures Locs(fib[f := d], pc, chain, rest)
  {
    hide Hand;
  }

  lemma AwayDebts(fib: map<nat, Fiber>, pc: map<nat, Pc>, f: nat, d: Fiber)
    requires Debts(fib, pc) && DebtOk(d, {}) && d.loc.Away?
    ensures Debts(fib[f := d], pc)
  {
    hide DebtOk;
  }

  lemma AwayPcs(s: State, f: nat, d: Fiber)
    requires Pcs(s.fib, s.next, s.inbound, s.pc) && forall u :: u in s.pc ==> f !in Hand(s.pc[u])
    ensures Pcs(s.fib[f := d], s.next, s.inbound, s.pc)
  {
    forall u | u in s.pc
      ensures PcOk(s.fib[f := d], s.next, s.inbound, s.pc[u])
    {
      assert PcOk(s.fib, s.next, s.inbound, s.pc[u]);
    }
  }

  lemma MaskOf(s: State, f: nat)
    requires Inv(s) && f in s.fib
    ensures MaskOk(s.fib[f].cred, s.inbound)
  {
    hide Chains, Rests, Pcs, Locs, Debts;
  }

  lemma FiberInv(s: State, st: Step)
    requires Inv(s) && FiberEnabled(s, st)
    ensures Inv(FiberApply(s, st))
  {
    hide Inv, Pending, Carried;
    var d := s.fib[st.f];
    FiberFacts(s, st.f);
    MaskOf(s, st.f);
    if st.Start? {
      AwayInv(s, st.f, Fiber({}, Running, Away, {}, {}));
    } else if st.Note? {
      if st.h < CREDITOR_WORDS * WORD_BITS {
        AwayInv(s, st.f, d.(cred := d.cred + {st.h}, owed := d.owed + {st.h}));
      }
    } else {
      DieInv(s, st.t, st.f);
    }
  }

  lemma DieInv(s: State, t: nat, f: nat)
    requires Inv(s) && FiberEnabled(s, Die(t, f))
    ensures Inv(FiberApply(s, Die(t, f)))
  {
    hide Inv;
    FiberFacts(s, f);
    MoveInv(s, t, Scan(f, 0, Top), f, s.fib[f].(life := Dead, loc := InHand(t)));
  }

  // ---- one hop ----------------------------------------------------------------------------------------------------------

  lemma ScanInv(s: State, t: nat)
    requires Inv(s) && HopEnabled(s, ScanWord(t))
    ensures Inv(HopApply(s, ScanWord(t)))
  {
    hide Inv;
    HandFacts(s, t);
    var p := s.pc[t];
    var cred := s.fib[p.f].cred;
    MaskOf(s, p.f);
    hide DebtOk;
    WordEmpty(cred, p.w);
    MovesOn(s, t, HopApply(s, ScanWord(t)).pc[t]);
  }

  // Past an empty word, or past the last, no creditor is left behind.
  lemma WordEmpty(cred: set<nat>, w: nat)
    requires forall h :: h in cred ==> h < CREDITOR_WORDS * WORD_BITS && h / WORD_BITS >= w
    ensures WordOf(cred, w) == {} ==> forall h :: h in cred ==> h / WORD_BITS >= w + 1
    ensures w >= CREDITOR_WORDS ==> cred == {}
  {
    if WordOf(cred, w) == {} {
      forall h | h in cred ensures h / WORD_BITS >= w + 1 {
        assert h !in WordOf(cred, w);
      }
    }
    assert forall h :: h in cred ==> h / WORD_BITS < CREDITOR_WORDS;
  }

  lemma TakeInv(s: State, t: nat)
    requires Inv(s) && HopEnabled(s, TakeBit(t))
    ensures Inv(HopApply(s, TakeBit(t)))
  {
    hide Inv;
    HandFacts(s, t);
    var p := s.pc[t];
    var d := s.fib[p.f];
    MaskOf(s, p.f);
    WordEmpty(d.cred, p.w);
    if WordOf(d.cred, p.w) == p.cur {
      var h := Least(p.cur);
      assert h in d.cred && h in s.inbound;
      var d' := d.(cred := d.cred - {h});
      assert d.cred == d'.cred + {h};
      MoveInv(s, t, Push(p.f, h, p.ctx), p.f, d');
    } else {
      hide DebtOk;
      MovesOn(s, t, HopApply(s, TakeBit(t)).pc[t]);
    }
  }

  lemma ReleaseInv(s: State, t: nat)
    requires Inv(s) && DrainEnabled(s, Release(t))
    ensures Inv(DrainApply(s, Release(t)))
  {
    hide Inv;
    HandFacts(s, t);
    var p := s.pc[t];
    var d := s.fib[p.f];
    MoveInv(s, t, Scan(p.f, 0, Draining(p.h, p.nxt)), p.f, d.(released := d.released + {p.h}));
  }

  lemma RecycleInv(s: State, t: nat)
    requires Inv(s) && HopEnabled(s, Recycle(t))
    ensures Inv(HopApply(s, Recycle(t)))
  {
    hide Inv;
    HandFacts(s, t);
    var p := s.pc[t];
    var d := s.fib[p.f];
    MoveInv(s, t, GoOn(p.ctx), p.f, d.(life := Pooled, cred := {}, loc := Away));
  }

  // ---- delivering ---------------------------------------------------------------------------------------------------------

  ghost predicate Unlisted(chain: map<nat, seq<nat>>, rest: map<nat, seq<nat>>, f: nat) {
    (forall h :: h in chain ==> f !in chain[h]) && (forall t :: t in rest ==> f !in rest[t])
  }

  lemma InHandUnlisted(s: State, t: nat, f: nat)
    requires Inv(s) && t in s.pc && f in s.fib && s.fib[f].loc == InHand(t)
    ensures Unlisted(s.chain, s.rest, f) && OnlyWith(s.pc, t, f)
  {
    hide Chains, Rests, Masks, Pcs, Debts, Hand;
  }

  lemma NextFrame(inbound: map<nat, Ptr>, next: map<nat, Ptr>, chain: map<nat, seq<nat>>, pc: map<nat, Pc>, rest: map<nat, seq<nat>>,
                  f: nat, q: Ptr)
    requires Chains(inbound, next, chain) && Rests(pc, next, rest) && Unlisted(chain, rest, f)
    ensures Chains(inbound, next[f := q], chain) && Rests(pc, next[f := q], rest)
  {
    hide Spelt, NextOf;
    forall h | h in chain ensures Spelt(next[f := q], inbound[h], chain[h]) {
      SpeltFrame(next, f, q, inbound[h], chain[h]);
    }
    forall t | t in rest ensures Spelt(next[f := q], NextOf(pc[t]), rest[t]) {
      SpeltFrame(next, f, q, NextOf(pc[t]), rest[t]);
    }
  }

  lemma StoreInv(s: State, t: nat)
    requires Inv(s) && HopEnabled(s, StoreNext(t))
    ensures Inv(HopApply(s, StoreNext(t)))
  {
    hide Chains, Rests, Locs, Debts, Masks, Pcs, DebtOk;
    HandFacts(s, t);
    var p := s.pc[t];
    var p' := Swap(p.f, p.target, p.head, p.ctx);
    InHandUnlisted(s, t, p.f);
    NextFrame(s.inbound, s.next, s.chain, s.pc, s.rest, p.f, p.head);
    PcRests(s.pc, s.next[p.f := p.head], s.rest, t, p');
    PcLocs(s.fib, s.pc, s.chain, s.rest, t, p');
    OtherDebts(s, t, p', p.f, s.fib[p.f]);
    assert s.fib[p.f := s.fib[p.f]] == s.fib;
    PcsMove(s.fib, s.next, s.inbound, s.inbound, s.pc, t, p', p.f, s.fib[p.f], p.head);
  }

  lemma ChainsPush(inbound: map<nat, Ptr>, next: map<nat, Ptr>, chain: map<nat, seq<nat>>, h: nat, f: nat)
    requires Chains(inbound, next, chain) && h in chain && f !in chain[h] && f in next && next[f] == inbound[h]
    ensures Chains(inbound[h := To(f)], next, chain[h := [f] + chain[h]])
  {
    SpeltPush(next, inbound[h], chain[h], f);
    hide Spelt;
  }

  lemma LocsPush(fib: map<nat, Fiber>, pc: map<nat, Pc>, chain: map<nat, seq<nat>>, rest: map<nat, seq<nat>>, t: nat, p: Pc, f: nat, h: nat)
    requires Locs(fib, pc, chain, rest) && t in pc && f in fib && fib[f].loc == InHand(t) && Hand(p) == {} && h in chain
    requires Hand(pc[t]) == {f}
    ensures Locs(fib[f := fib[f].(loc := OnChain(h))], pc[t := p], chain[h := [f] + chain[h]], rest)
  {
    hide Hand;
    var fib' := fib[f := fib[f].(loc := OnChain(h))];
    var chain' := chain[h := [f] + chain[h]];
    forall k, g | k in chain'
      ensures g in chain'[k] <==> g in fib' && fib'[g].loc == OnChain(k)
    {
    }
  }

  lemma SwapInv(s: State, t: nat)
    requires Inv(s) && HopEnabled(s, SwapHead(t)) && s.inbound[s.pc[t].target] == s.pc[t].head
    ensures Inv(HopApply(s, SwapHead(t)))
  {
    hide Chains, Rests, Locs, Debts, Masks, Pcs, DebtOk;
    HandFacts(s, t);
    var p := s.pc[t];
    var p' := GoOn(p.ctx);
    var h := p.target;
    var d := s.fib[p.f].(loc := OnChain(h));
    var inbound' := s.inbound[h := To(p.f)];
    InHandUnlisted(s, t, p.f);
    ChainsPush(s.inbound, s.next, s.chain, h, p.f);
    PcRests(s.pc, s.next, s.rest, t, p');
    LocsPush(s.fib, s.pc, s.chain, s.rest, t, p', p.f, h);
    assert DebtOk(d, {h}) by { OnChainDebt(s.fib[p.f], d, {h}); }
    OtherDebts(s, t, p', p.f, d);
    SwapMasks(s.fib, s.inbound, p.f, d, h);
    assert s.next[p.f := s.next[p.f]] == s.next;
    PcsMove(s.fib, s.next, s.inbound, inbound', s.pc, t, p', p.f, d, s.next[p.f]);
  }

  lemma OnChainDebt(d: Fiber, d': Fiber, pend: set<nat>)
    requires DebtOk(d, pend) && d.life.Dead? && d' == d.(loc := d'.loc) && !d'.loc.Away?
    ensures DebtOk(d', pend)
  {
  }

  lemma SwapMasks(fib: map<nat, Fiber>, inbound: map<nat, Ptr>, f: nat, d: Fiber, h: nat)
    requires Masks(fib, inbound) && f in fib && d.cred == fib[f].cred && h in inbound
    ensures Masks(fib[f := d], inbound[h := To(f)])
  {
    var fib' := fib[f := d];
    forall g | g in fib'
      ensures MaskOk(fib'[g].cred, inbound[h := To(f)])
    {
      assert MaskOk(fib[g].cred, inbound);
    }
  }

  lemma HopInv(s: State, st: Step)
    requires Inv(s) && HopEnabled(s, st)
    ensures Inv(HopApply(s, st))
  {
    hide Inv;
    if st.ScanWord? {
      ScanInv(s, st.t);
    } else if st.TakeBit? {
      TakeInv(s, st.t);
    } else if st.StoreNext? {
      StoreInv(s, st.t);
    } else if st.Recycle? {
      RecycleInv(s, st.t);
    } else if st.SwapHead? && s.inbound[s.pc[st.t].target] == s.pc[st.t].head {
      SwapInv(s, st.t);
    } else {
      HeadInv(s, st);
    }
  }

  lemma HeadInv(s: State, st: Step)
    requires Inv(s) && HopEnabled(s, st) && (st.LoadHead? || (st.SwapHead? && s.inbound[s.pc[st.t].target] != s.pc[st.t].head))
    ensures Inv(HopApply(s, st))
  {
    hide Inv;
    HandFacts(s, st.t);
    hide DebtOk;
    MovesOn(s, st.t, HopApply(s, st).pc[st.t]);
  }

  // ---- draining --------------------------------------------------------------------------------------------------------------

  lemma TakeAllLists(s: State, t: nat, h: nat)
    requires Chains(s.inbound, s.next, s.chain) && Rests(s.pc, s.next, s.rest) && t in s.pc && h in s.chain
    ensures Chains(s.inbound[h := Null], s.next, s.chain[h := []])
    ensures Rests(s.pc[t := Walk(h, s.inbound[h])], s.next, s.rest[t := s.chain[h]])
  {
    assert Spelt(s.next, Null, []);
    hide Spelt;
  }

  lemma TakeAllLocs(s: State, t: nat, h: nat)
    requires Locs(s.fib, s.pc, s.chain, s.rest) && t in s.pc && t in s.rest && s.rest[t] == [] && Hand(s.pc[t]) == {}
    requires h in s.chain && h in s.inbound
    ensures Locs(ToList(s.fib, s.chain[h], InList(t)), s.pc[t := Walk(h, s.inbound[h])], s.chain[h := []], s.rest[t := s.chain[h]])
  {
    var fib' := ToList(s.fib, s.chain[h], InList(t));
    assert forall f :: f in s.fib ==> fib'[f].loc == if s.fib[f].loc == OnChain(h) then InList(t) else s.fib[f].loc;
    hide ToList;
  }

  lemma TakeAllDebts(s: State, t: nat, h: nat)
    requires Debts(s.fib, s.pc) && Locs(s.fib, s.pc, s.chain, s.rest) && t in s.pc && t in s.rest && s.rest[t] == []
    requires s.pc[t].Rest? && h in s.chain && h in s.inbound
    ensures Debts(ToList(s.fib, s.chain[h], InList(t)), s.pc[t := Walk(h, s.inbound[h])])
  {
    var fib' := ToList(s.fib, s.chain[h], InList(t));
    var pc' := s.pc[t := Walk(h, s.inbound[h])];
    forall f | f in fib'
      ensures DebtOk(fib'[f], Pending(fib'[f].loc, pc'))
    {
      assert DebtOk(s.fib[f], Pending(s.fib[f].loc, s.pc));
      assert Pending(fib'[f].loc, pc') == Pending(s.fib[f].loc, s.pc);
    }
  }

  lemma TakeAllPcs(s: State, t: nat, h: nat)
    requires Pcs(s.fib, s.next, s.inbound, s.pc) && Masks(s.fib, s.inbound) && h in s.inbound && h in s.chain
    ensures Pcs(ToList(s.fib, s.chain[h], InList(t)), s.next, s.inbound[h := Null], s.pc[t := Walk(h, s.inbound[h])])
    ensures Masks(ToList(s.fib, s.chain[h], InList(t)), s.inbound[h := Null])
  {
    var fib' := ToList(s.fib, s.chain[h], InList(t));
    var inbound' := s.inbound[h := Null];
    assert forall f :: f in s.fib ==> fib'[f].cred == s.fib[f].cred;
    hide ToList;
    forall u | u in s.pc ensures PcOk(fib', s.next, inbound', s.pc[u]) {
      assert PcOk(s.fib, s.next, s.inbound, s.pc[u]);
    }
    assert PcOk(fib', s.next, inbound', Walk(h, s.inbound[h]));
    forall f | f in fib' ensures MaskOk(fib'[f].cred, inbound') {
      assert MaskOk(s.fib[f].cred, s.inbound);
    }
  }

  lemma TakeAllInv(s: State, t: nat, h: nat)
    requires Inv(s) && DrainEnabled(s, TakeAll(t, h))
    ensures Inv(DrainApply(s, TakeAll(t, h)))
  {
    hide Chains, Rests, Locs, Debts, Masks, Pcs;
    RestEmpty(s, t);
    TakeAllLists(s, t, h);
    TakeAllLocs(s, t, h);
    TakeAllDebts(s, t, h);
    TakeAllPcs(s, t, h);
    assert ToList(s.fib, s.chain[h], InList(t)).Keys == s.fib.Keys;
  }

  // What a thread walking a list has before it.
  lemma WalkFacts(s: State, t: nat)
    requires Inv(s) && t in s.pc && s.pc[t].Walk?
    ensures t in s.rest && s.pc[t].p == First(s.rest[t]) && PcOk(s.fib, s.next, s.inbound, s.pc[t])
    ensures Rests(s.pc, s.next, s.rest)
    ensures s.rest[t] != [] ==> var f := s.rest[t][0];
              f in s.fib && s.fib[f].loc == InList(t) && DebtOk(s.fib[f], {s.pc[t].h}) && s.fib[f].life.Dead? && OnlyWith(s.pc, t, f)
  {
    hide Chains, Rests, Locs, Debts, Masks, Pcs, PcOk, DebtOk;
    WalkAt(s, t);
    if s.rest[t] != [] {
      ListedFacts(s, t, s.rest[t][0]);
    }
  }

  lemma WalkAt(s: State, t: nat)
    requires Inv(s) && t in s.pc && s.pc[t].Walk?
    ensures t in s.rest && s.pc[t].p == First(s.rest[t]) && PcOk(s.fib, s.next, s.inbound, s.pc[t])
  {
    hide Chains, Locs, Debts, Masks, PcOk;
  }

  lemma ListedFacts(s: State, t: nat, f: nat)
    requires Inv(s) && t in s.pc && s.pc[t].Walk? && t in s.rest && f in s.rest[t]
    ensures f in s.fib && s.fib[f].loc == InList(t) && DebtOk(s.fib[f], {s.pc[t].h}) && s.fib[f].life.Dead? && OnlyWith(s.pc, t, f)
  {
    hide Chains, Rests, Masks, Pcs;
    assert s.fib[f].loc == InList(t);
    assert DebtOk(s.fib[f], Pending(s.fib[f].loc, s.pc));
  }

  lemma WalkUnlisted(s: State, t: nat, f: nat, v: seq<nat>)
    requires Locs(s.fib, s.pc, s.chain, s.rest) && t in s.rest && f in s.rest[t] && f !in v
    ensures Unlisted(s.chain, s.rest[t := v], f)
  {
    hide Hand;
    assert s.fib[f].loc == InList(t);
  }

  lemma WalkRests(pc: map<nat, Pc>, next: map<nat, Ptr>, rest: map<nat, seq<nat>>, t: nat, p: Pc)
    requires Rests(pc, next, rest) && t in rest && rest[t] != [] && rest[t][0] in next && NextOf(p) == next[rest[t][0]]
    ensures Rests(pc[t := p], next, rest[t := rest[t][1..]])
  {
    SpeltPop(next, NextOf(pc[t]), rest[t]);
    hide Spelt, NextOf;
  }

  lemma WalkLists(s: State, t: nat, p: Pc)
    requires Chains(s.inbound, s.next, s.chain) && Rests(s.pc, s.next, s.rest) && Locs(s.fib, s.pc, s.chain, s.rest)
    requires t in s.pc && t in s.rest && s.rest[t] != [] && s.rest[t][0] in s.next && NextOf(p) == s.next[s.rest[t][0]]
    ensures var f := s.rest[t][0];
            && Chains(s.inbound, s.next[f := Null], s.chain)
            && Rests(s.pc[t := p], s.next[f := Null], s.rest[t := s.rest[t][1..]])
  {
    hide Chains, Rests, Locs, NextOf;
    var f, v := s.rest[t][0], s.rest[t][1..];
    FirstOnce(s, t);
    WalkUnlisted(s, t, f, v);
    WalkRests(s.pc, s.next, s.rest, t, p);
    NextFrame(s.inbound, s.next, s.chain, s.pc[t := p], s.rest[t := v], f, Null);
  }

  lemma FirstOnce(s: State, t: nat)
    requires Rests(s.pc, s.next, s.rest) && t in s.pc && t in s.rest && s.rest[t] != []
    ensures s.rest[t][0] !in s.rest[t][1..] && s.rest[t][0] in s.next
  {
    SpeltPop(s.next, NextOf(s.pc[t]), s.rest[t]);
  }

  lemma WalkLocs(s: State, t: nat, p: Pc, f: nat)
    requires Locs(s.fib, s.pc, s.chain, s.rest) && t in s.pc && t in s.rest && s.rest[t] != [] && f == s.rest[t][0] && f in s.fib
    requires f !in s.rest[t][1..] && Hand(s.pc[t]) == {} && Hand(p) == {f}
    ensures Locs(s.fib[f := s.fib[f].(loc := InHand(t))], s.pc[t := p], s.chain, s.rest[t := s.rest[t][1..]])
  {
    hide Hand;
    assert s.rest[t] == [f] + s.rest[t][1..];
    assert forall g :: g in s.rest[t] <==> g == f || g in s.rest[t][1..];
  }

  lemma WalkInv(s: State, t: nat)
    requires Inv(s) && DrainEnabled(s, WalkNext(t))
    ensures Inv(DrainApply(s, WalkNext(t)))
  {
    hide Chains, Rests, Locs, Debts, Masks, Pcs, DebtOk;
    WalkFacts(s, t);
    if s.rest[t] == [] {
      WalkDone(s, t);
    } else {
      var f := s.rest[t][0];
      var p' := Releasing(f, s.pc[t].h, s.next[f]);
      var d := s.fib[f].(loc := InHand(t));
      WalkLists(s, t, p');
      FirstOnce(s, t);
      WalkLocs(s, t, p', f);
      OnChainDebt(s.fib[f], d, {s.pc[t].h});
      OtherDebts(s, t, p', f, d);
      MasksMove(s.fib, s.inbound, f, d);
      PcsMove(s.fib, s.next, s.inbound, s.inbound, s.pc, t, p', f, d, Null);
    }
  }

  lemma WalkDone(s: State, t: nat)
    requires Inv(s) && t in s.pc && s.pc[t].Walk? && s.pc[t].p.Null? && t in s.rest && s.rest[t] == []
    ensures Inv(At(s, t, Rest))
  {
    hide Chains, Locs, Debts, Masks, Pcs, Spelt;
    PcRests(s.pc, s.next, s.rest, t, Rest);
    PcLocs(s.fib, s.pc, s.chain, s.rest, t, Rest);
    PcPcs(s.fib, s.next, s.inbound, s.pc, t, Rest);
    DoneDebts(s, t);
  }

  lemma DoneDebts(s: State, t: nat)
    requires Debts(s.fib, s.pc) && Locs(s.fib, s.pc, s.chain, s.rest) && t in s.pc && t in s.rest && s.rest[t] == [] && s.pc[t].Walk?
    ensures Debts(s.fib, s.pc[t := Rest])
  {
    hide DebtOk;
    forall g | g in s.fib
      ensures DebtOk(s.fib[g], Pending(s.fib[g].loc, s.pc[t := Rest]))
    {
      assert Pending(s.fib[g].loc, s.pc[t := Rest]) == Pending(s.fib[g].loc, s.pc);
    }
  }

  lemma DrainInv(s: State, st: Step)
    requires Inv(s) && DrainEnabled(s, st)
    ensures Inv(DrainApply(s, st))
  {
    hide Inv;
    if st.TakeAll? {
      TakeAllInv(s, st.t, st.h);
    } else if st.WalkNext? {
      WalkInv(s, st.t);
    } else {
      ReleaseInv(s, st.t);
    }
  }

  lemma InvStep(s: State, st: Step)
    requires Inv(s) && Enabled(s, st)
    ensures Inv(Apply(s, st))
  {
    hide Inv, FiberApply, DrainApply, HopApply, FiberEnabled, DrainEnabled, HopEnabled;
    if FiberEnabled(s, st) {
      FiberInv(s, st);
    } else if DrainEnabled(s, st) {
      DrainInv(s, st);
    } else {
      HopInv(s, st);
    }
  }
}
