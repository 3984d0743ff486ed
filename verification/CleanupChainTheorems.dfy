/**
 The cleanup chain over whole runs, with any number of concurrent drainers: every creditor of a dead
 fiber gets one release from the drain of its own chain, and the fiber returns to the pool once,
 after the last of them.
 */
module CleanupChainTheorems {
  import opened CleanupChain
  import opened CleanupChainSafety

  ghost predicate Init(s: State)
  {
    && s.fib.Keys == s.next.Keys && s.inbound.Keys == s.chain.Keys && s.pc.Keys == s.rest.Keys
    && (forall f :: f in s.fib ==> s.fib[f] == Fiber({}, Pooled, Away, {}, {}))
    && (forall h :: h in s.chain ==> s.inbound[h].Null? && s.chain[h] == [])
    && (forall t :: t in s.pc ==> s.pc[t].Rest? && s.rest[t] == [])
  }

  ghost predicate Run(s: State, steps: seq<Step>, s': State)
    decreases |steps|
  {
    if steps == [] then s' == s
    else Enabled(s, steps[0]) && Run(Apply(s, steps[0]), steps[1..], s')
  }

  lemma {:induction false} InvRun(s: State, steps: seq<Step>, s': State)
    requires Inv(s) && Run(s, steps, s')
    ensures Inv(s')
    decreases |steps|
  {
    hide Inv, Apply, Enabled;
    if steps != [] {
      InvStep(s, steps[0]);
      InvRun(Apply(s, steps[0]), steps[1..], s');
    }
  }

  lemma Reachable(s0: State, steps: seq<Step>, s: State)
    requires Init(s0) && Run(s0, steps, s)
    ensures Inv(s)
  {
    assert Inv(s0);
    InvRun(s0, steps, s);
  }

  // A release runs for a holder that is owed one, from that holder's own chain, for the first time.
  lemma ReleasedOnceByItsHolder(s0: State, steps: seq<Step>, s: State, t: nat)
    requires Init(s0) && Run(s0, steps, s) && Enabled(s, Release(t))
    ensures var f, h := s.pc[t].f, s.pc[t].h;
            && s.fib[f].life.Dead? && h in s.fib[f].owed && h !in s.fib[f].released && h !in s.fib[f].cred
            && Apply(s, Release(t)).fib[f].released == s.fib[f].released + {h}
  {
    hide Init, Run, Inv;
    Reachable(s0, steps, s);
    HandFacts(s, t);
  }

  // A fiber is recycled only when all it owed has been released; the claim is never lost, and it
  // leaves no place in which the fiber could be found again.
  lemma RecycledWhenPaid(s0: State, steps: seq<Step>, s: State, t: nat)
    requires Init(s0) && Run(s0, steps, s) && Enabled(s, Recycle(t))
    ensures var f, s' := s.pc[t].f, Apply(s, Recycle(t));
            && s.fib[f].life.Dead? && s.fib[f].released == s.fib[f].owed
            && s'.fib[f].life.Pooled? && s'.fib[f].loc.Away? && Gone(s', f)
  {
    hide Init, Run, Inv;
    Reachable(s0, steps, s);
    HandFacts(s, t);
    InvStep(s, Recycle(t));
    AwayIsGone(Apply(s, Recycle(t)), s.pc[t].f);
  }

  // On no chain, in no list being drained, in no thread's hand.
  ghost predicate Gone(s: State, f: nat) { Unlisted(s.chain, s.rest, f) && forall t :: t in s.pc ==> f !in Hand(s.pc[t]) }

  lemma AwayIsGone(s: State, f: nat)
    requires Inv(s) && f in s.fib && s.fib[f].loc.Away?
    ensures Gone(s, f)
  {
    hide Chains, Rests, Debts, Masks, Pcs, Hand;
  }

  // A dead fiber is on one chain, once, or in one list being drained, once, or in one thread's hand;
  // a fiber in the pool or running is in none.
  lemma DeadIsInOnePlace(s0: State, steps: seq<Step>, s: State, f: nat)
    requires Init(s0) && Run(s0, steps, s) && f in s.fib
    ensures !s.fib[f].life.Dead? <==> Gone(s, f)
    ensures OnlyPlace(s, f)
    ensures s.inbound.Keys == s.chain.Keys && forall h :: h in s.chain ==> Spelt(s.next, s.inbound[h], s.chain[h])
  {
    hide Init, Run, Masks, Pcs, Hand, Rests, Debts, Spelt;
    Reachable(s0, steps, s);
    LifeIsPlace(s, f);
    hide Gone, Chains, OnlyPlace;
    PlaceExists(s, f);
    Alone(s, f);
  }

  // No two places for f, and no place twice.
  ghost predicate OnlyPlace(s: State, f: nat) {
    && (forall h, k :: h in s.chain && k in s.chain && f in s.chain[h] && f in s.chain[k] ==> h == k)
    && (forall t, u :: t in s.rest && u in s.rest && f in s.rest[t] && f in s.rest[u] ==> t == u)
    && (forall t, u :: t in s.pc && u in s.pc && f in Hand(s.pc[t]) && f in Hand(s.pc[u]) ==> t == u)
    && (forall h, t :: h in s.chain && t in s.rest && f in s.chain[h] ==> f !in s.rest[t])
    && (forall h, t :: h in s.chain && t in s.pc && f in s.chain[h] ==> f !in Hand(s.pc[t]))
    && (forall t, u :: t in s.rest && u in s.pc && f in s.rest[t] ==> f !in Hand(s.pc[u]))
  }

  lemma Alone(s: State, f: nat)
    requires Locs(s.fib, s.pc, s.chain, s.rest)
    ensures OnlyPlace(s, f)
  {
    hide Hand;
    forall h | h in s.chain && f in s.chain[h] ensures f in s.fib && s.fib[f].loc == OnChain(h) {}
    forall t | t in s.rest && f in s.rest[t] ensures f in s.fib && s.fib[f].loc == InList(t) {}
    forall t | t in s.pc && f in Hand(s.pc[t]) ensures f in s.fib && s.fib[f].loc == InHand(t) {}
  }

  lemma LifeIsPlace(s: State, f: nat)
    requires Inv(s) && f in s.fib
    ensures !s.fib[f].life.Dead? <==> s.fib[f].loc.Away?
  {
    hide Inv;
    FiberFacts(s, f);
  }

  lemma PlaceExists(s: State, f: nat)
    requires Inv(s) && f in s.fib
    ensures s.fib[f].loc.Away? <==> Gone(s, f)
  {
    hide Chains, Rests, Debts, Masks, Pcs, Hand;
    RestKeys(s);
    var at := s.fib[f].loc;
    if at.OnChain? {
      assert f in s.chain[at.h];
    } else if at.InList? {
      assert f in s.rest[at.t];
    } else if at.InHand? {
      assert f in Hand(s.pc[at.t]);
    }
  }

  // ---- the measure -------------------------------------------------------------------------------------------

  function Outstanding(d: Fiber): (n: nat) { |d.owed - d.released| }

  // While a fiber is dead no step adds to what is outstanding, and each release takes one off; it is
  // recycled at zero.
  lemma OutstandingFalls(s: State, st: Step, s': State, f: nat)
    requires Inv(s) && Enabled(s, st) && s' == Apply(s, st) && f in s.fib && s.fib[f].life.Dead?
    ensures f in s'.fib
    ensures var d, d' := s.fib[f], s'.fib[f];
            && (d'.life.Dead? ==> d'.owed == d.owed && d'.cred <= d.cred)
            && (st.Release? && s.pc[st.t].f == f ==> Outstanding(d') == Outstanding(d) - 1)
            && (d'.life.Dead? && !(st.Release? && s.pc[st.t].f == f) ==> Outstanding(d') == Outstanding(d))
            && (!d'.life.Dead? ==> st.Recycle? && Outstanding(d) == 0)
  {
    hide Inv, Apply;
    if st.Release? && s.pc[st.t].f == f {
      ReleaseTakesOne(s, st.t);
      ApplyDrain(s, st);
    } else if st.Recycle? && s.pc[st.t].f == f {
      HandFacts(s, st.t);
      ApplyHop(s, st);
      assert s.fib[f].owed - s.fib[f].released == {};
    } else {
      OthersKeep(s, st, s', f);
    }
  }

  lemma ApplyDrain(s: State, st: Step)
    requires DrainEnabled(s, st)
    ensures Apply(s, st) == DrainApply(s, st)
  {
    hide FiberApply, HopApply, DrainApply;
  }

  lemma ApplyHop(s: State, st: Step)
    requires HopEnabled(s, st)
    ensures Apply(s, st) == HopApply(s, st)
  {
    hide FiberApply, HopApply, DrainApply;
  }

  lemma ReleaseTakesOne(s: State, t: nat)
    requires Inv(s) && DrainEnabled(s, Release(t))
    ensures var f, s' := s.pc[t].f, DrainApply(s, Release(t));
            && Outstanding(s'.fib[f]) == Outstanding(s.fib[f]) - 1
            && s'.fib[f] == s.fib[f].(released := s'.fib[f].released)
  {
    hide Inv;
    HandFacts(s, t);
    OneLess(s.fib[s.pc[t].f].owed, s.fib[s.pc[t].f].released, s.pc[t].h);
  }

  lemma OneLess(o: set<nat>, r: set<nat>, h: nat)
    requires h in o && h !in r
    ensures |o - (r + {h})| == |o - r| - 1
  {
    assert o - r == (o - (r + {h})) + {h};
  }

  lemma OthersKeep(s: State, st: Step, s': State, f: nat)
    requires Enabled(s, st) && s' == Apply(s, st) && f in s.fib && s.fib[f].life.Dead?
    requires !((st.Release? || st.Recycle?) && s.pc[st.t].f == f)
    ensures f in s'.fib
    ensures var d, d' := s.fib[f], s'.fib[f];
            d'.life.Dead? && d'.owed == d.owed && d'.released == d.released && d'.cred <= d.cred
  {
    if FiberEnabled(s, st) {
      hide HopApply, DrainApply;
    } else if DrainEnabled(s, st) {
      hide HopApply, FiberApply;
    } else {
      hide DrainApply, FiberApply;
    }
  }
}
