/**
 The free list the scope slots come from: a lock-free stack of 1-based slot numbers linked through the
 slots, whose head carries a tag that every successful compare-and-swap bumps.

 Any number of threads; one step is one access to shared memory.  `free` (the list the links spell)
 and `held` are history.
 */
module CancelFreeList {

  datatype Pc =
    | Idle
    | PopRead(tag: nat, top: nat) | PopCas(tag: nat, top: nat, next: nat)
    | PushRead(slot: nat) | PushLink(slot: nat, tag: nat, top: nat) | PushCas(slot: nat, tag: nat, top: nat)

  datatype State = State(tag: nat, top: nat, next: map<nat, nat>, pc: map<nat, Pc>, free: seq<nat>, held: set<nat>)

  datatype Step = PopLoad(t: nat) | PopNext(t: nat) | PopSwap(t: nat)
                | PushStart(t: nat, slot: nat) | PushLoad(t: nat) | PushStore(t: nat) | PushSwap(t: nat)

  predicate Enabled(s: State, st: Step)
  {
    st.t in s.pc &&
    match st
    case PopLoad(t) => s.pc[t].Idle?
    case PopNext(t) => s.pc[t].PopRead? && (s.pc[t].top > 0 ==> s.pc[t].top - 1 in s.next)
    case PopSwap(t) => s.pc[t].PopCas?
    case PushStart(t, slot) => s.pc[t].Idle? && slot in s.held
    case PushLoad(t) => s.pc[t].PushRead?
    case PushStore(t) => s.pc[t].PushLink?
    case PushSwap(t) => s.pc[t].PushCas?
  }

  function At(s: State, t: nat, p: Pc): (s': State) { s.(pc := s.pc[t := p]) }

  function Apply(s: State, st: Step): (s': State)
    requires Enabled(s, st)
  {
    var p := s.pc[st.t];
    match st
    case PopLoad(t) => At(s, t, PopRead(s.tag, s.top))
    case PopNext(t) => At(s, t, if p.top == 0 then Idle else PopCas(p.tag, p.top, s.next[p.top - 1]))
    case PopSwap(t) =>
      if s.tag == p.tag && s.top == p.top && p.top > 0 then
        At(s, t, Idle).(tag := s.tag + 1, top := p.next, free := if s.free == [] then [] else s.free[1..], held := s.held + {p.top - 1})
      else At(s, t, PopRead(s.tag, s.top))
    case PushStart(t, slot) => At(s, t, PushRead(slot)).(held := s.held - {slot})
    case PushLoad(t) => At(s, t, PushLink(p.slot, s.tag, s.top))
    case PushStore(t) => At(s, t, PushCas(p.slot, p.tag, p.top)).(next := s.next[p.slot := p.top])
    case PushSwap(t) =>
      if s.tag == p.tag && s.top == p.top then
        At(s, t, Idle).(tag := s.tag + 1, top := p.slot + 1, free := [p.slot] + s.free)
      else At(s, t, PushLink(p.slot, s.tag, s.top))
  }

  // ---- what every step keeps --------------------------------------------------------------------------

  function TopOf(free: seq<nat>): (top: nat) { if free == [] then 0 else free[0] + 1 }

  // The links spell the list.
  predicate Spells(next: map<nat, nat>, free: seq<nat>) {
    && (forall i, j :: 0 <= i < j < |free| ==> free[i] != free[j])
    && (forall i :: 0 <= i < |free| ==> free[i] in next && next[free[i]] == TopOf(free[i + 1..]))
  }

  predicate Pushing(p: Pc) { p.PushRead? || p.PushLink? || p.PushCas? }

  // A slot is in the list, with a scope, or with one thread giving it back.
  ghost predicate Apart(pc: map<nat, Pc>, free: seq<nat>, held: set<nat>) {
    && (forall i :: 0 <= i < |free| ==> free[i] !in held)
    && (forall t :: t in pc && Pushing(pc[t]) ==> pc[t].slot !in held && pc[t].slot !in free)
    && (forall t, u :: t in pc && u in pc && t != u && Pushing(pc[t]) && Pushing(pc[u]) ==> pc[t].slot != pc[u].slot)
  }

  // What a thread read of the head is still right as long as the tag is.
  ghost predicate ViewOk(s: State, p: Pc) {
    && (p.PopRead? || p.PopCas? || p.PushLink? || p.PushCas? ==> p.tag <= s.tag && (p.tag == s.tag ==> p.top == s.top))
    && (p.PopCas? ==> p.top > 0 && p.top - 1 in s.next && (p.tag == s.tag ==> p.next == s.next[p.top - 1]))
    && (p.PushCas? ==> p.slot in s.next && s.next[p.slot] == p.top)
    && (p.PopRead? && p.top > 0 ==> p.top - 1 in s.next)
    && (p.PushLink? && p.top > 0 ==> p.top - 1 in s.next)
  }

  ghost predicate Views(s: State) { forall t :: t in s.pc ==> ViewOk(s, s.pc[t]) }

  ghost predicate Inv(s: State) {
    s.top == TopOf(s.free) && Spells(s.next, s.free) && Apart(s.pc, s.free, s.held) && Views(s)
  }

  lemma ReadInv(s: State, st: Step)
    requires Inv(s) && Enabled(s, st) && (st.PopLoad? || st.PopNext? || st.PushStart? || st.PushLoad?)
    ensures Inv(Apply(s, st))
  {
    hide Spells;
    var s' := Apply(s, st);
    assert s.free != [] ==> s.free[0] in s.next by { if s.free != [] { FirstLinked(s); } }
    forall u | u in s'.pc ensures ViewOk(s', s'.pc[u]) {
      assert u in s.pc ==> ViewOk(s, s.pc[u]);
    }
  }

  lemma FirstLinked(s: State)
    requires Spells(s.next, s.free) && s.free != []
    ensures s.free[0] in s.next
  {
  }

  lemma StoreInv(s: State, t: nat)
    requires Inv(s) && Enabled(s, PushStore(t))
    ensures Inv(Apply(s, PushStore(t)))
  {
    var s' := Apply(s, PushStore(t));
    var slot := s.pc[t].slot;
    assert Spells(s'.next, s.free);
    FirstNot(s.free, slot);
    hide Spells;
    forall u | u in s'.pc ensures ViewOk(s', s'.pc[u]) {
      assert ViewOk(s, s.pc[u]);
    }
  }

  lemma FirstNot(free: seq<nat>, slot: nat)
    requires slot !in free
    ensures TopOf(free) != slot + 1
  {
  }

  lemma PushInv(s: State, t: nat)
    requires Inv(s) && Enabled(s, PushSwap(t))
    ensures Inv(Apply(s, PushSwap(t)))
  {
    var s' := Apply(s, PushSwap(t));
    var p := s.pc[t];
    assert ViewOk(s, p);
    assert s.free != [] ==> s.free[0] in s.next by { if s.free != [] { FirstLinked(s); } }
    if s.tag == p.tag && s.top == p.top {
      PushSpells(s.next, s.free, p.slot);
    }
    hide Spells;
    forall u | u in s'.pc ensures ViewOk(s', s'.pc[u]) {
      assert ViewOk(s, s.pc[u]);
    }
  }

  lemma PushSpells(next: map<nat, nat>, free: seq<nat>, slot: nat)
    requires Spells(next, free) && slot !in free && slot in next && next[slot] == TopOf(free)
    ensures Spells(next, [slot] + free)
  {
    var f := [slot] + free;
    forall i | 0 <= i < |f|
      ensures f[i] in next && next[f[i]] == TopOf(f[i + 1..])
    {
      if i == 0 {
        assert f[1..] == free;
      } else {
        assert f[i] == free[i - 1] && f[i + 1..] == free[i..];
      }
    }
  }

  lemma PopSpells(next: map<nat, nat>, free: seq<nat>)
    requires Spells(next, free) && free != []
    ensures Spells(next, free[1..]) && next[free[0]] == TopOf(free[1..]) && free[0] !in free[1..]
  {
    var f := free[1..];
    forall i | 0 <= i < |f|
      ensures f[i] in next && next[f[i]] == TopOf(f[i + 1..])
    {
      assert f[i] == free[i + 1] && f[i + 1..] == free[i + 2..];
    }
  }

  lemma PopInv(s: State, t: nat)
    requires Inv(s) && Enabled(s, PopSwap(t))
    ensures Inv(Apply(s, PopSwap(t)))
  {
    var s' := Apply(s, PopSwap(t));
    var p := s.pc[t];
    assert ViewOk(s, p);
    if s.free != [] {
      FirstLinked(s);
      PopSpells(s.next, s.free);
    }
    hide Spells;
    PopApart(s, t);
    forall u | u in s'.pc ensures ViewOk(s', s'.pc[u]) {
      assert ViewOk(s, s.pc[u]);
    }
  }

  lemma PopApart(s: State, t: nat)
    requires Apart(s.pc, s.free, s.held) && t in s.pc && s.pc[t].PopCas?
    requires s.free != [] ==> s.free[0] !in s.free[1..]
    ensures Apart(s.pc[t := PopRead(s.tag, s.top)], s.free, s.held)
    ensures s.free != [] ==> Apart(s.pc[t := Idle], s.free[1..], s.held + {s.free[0]})
  {
    if s.free != [] {
      var f := s.free[1..];
      assert forall i :: 0 <= i < |f| ==> f[i] == s.free[i + 1];
      assert forall i :: 0 <= i < |f| ==> f[i] in f;
    }
  }

  lemma InvStep(s: State, st: Step)
    requires Inv(s) && Enabled(s, st)
    ensures Inv(Apply(s, st))
  {
    hide Inv, Apply;
    if st.PushStore? {
      StoreInv(s, st.t);
    } else if st.PushSwap? {
      PushInv(s, st.t);
    } else if st.PopSwap? {
      PopInv(s, st.t);
    } else {
      ReadInv(s, st);
    }
  }

  // ---- the stack over every run ---------------------------------------------------------------------------

  ghost predicate Init(s: State) {
    s.top == TopOf(s.free) && Spells(s.next, s.free) && s.held == {} && forall t :: t in s.pc ==> s.pc[t].Idle?
  }

  ghost predicate Run(s: State, steps: seq<Step>, s': State)
    decreases |steps|
  {
    if steps == [] then s' == s
    else Enabled(s, steps[0]) && Run(Apply(s, steps[0]), steps[1..], s')
  }

  lemma {:induction false} InvRun(s: State, steps: seq<Step>, s': State)
    requires Inv(s) && Run(s, steps, s')
    ensures Inv(s')
    decreases |steps|
  {
    hide Inv, Apply, Enabled;
    if steps != [] {
      InvStep(s, steps[0]);
      InvRun(Apply(s, steps[0]), steps[1..], s');
    }
  }

  // A pop that swaps takes the first slot of the list, which no scope holds and no thread is giving
  // back, whatever happened between its three accesses.
  lemma PopTakesTheFirst(s0: State, steps: seq<Step>, s: State, t: nat)
    requires Init(s0) && Run(s0, steps, s) && Enabled(s, PopSwap(t)) && Apply(s, PopSwap(t)).tag != s.tag
    ensures var s', slot := Apply(s, PopSwap(t)), s.pc[t].top - 1;
            && slot >= 0 && s.free == [slot] + s'.free && s'.top == TopOf(s'.free)
            && slot !in s.held && s'.held == s.held + {slot} && slot !in s'.free
            && forall u :: u in s.pc && Pushing(s.pc[u]) ==> s.pc[u].slot != slot
  {
    assert Inv(s0);
    hide Run;
    InvRun(s0, steps, s);
    assert ViewOk(s, s.pc[t]);
    PopSpells(s.next, s.free);
    assert s.free[0] in s.free;
  }

  // A push that swaps puts its slot first.
  lemma PushPutsFirst(s0: State, steps: seq<Step>, s: State, t: nat)
    requires Init(s0) && Run(s0, steps, s) && Enabled(s, PushSwap(t)) && Apply(s, PushSwap(t)).tag != s.tag
    ensures var s' := Apply(s, PushSwap(t));
            s'.free == [s.pc[t].slot] + s.free && s'.top == TopOf(s'.free) && Spells(s'.next, s'.free)
  {
    assert Inv(s0);
    hide Run;
    InvRun(s0, steps, s);
    InvStep(s, PushSwap(t));
  }

  ghost predicate Somewhere(s: State, x: nat) { x in s.free || x in s.held || exists t :: t in s.pc && Pushing(s.pc[t]) && s.pc[t].slot == x }

  lemma StaysSomewhere(s: State, st: Step, x: nat)
    requires Inv(s) && Enabled(s, st) && Somewhere(s, x)
    ensures Somewhere(Apply(s, st), x)
  {
    var s' := Apply(s, st);
    hide Spells, Apart;
    assert ViewOk(s, s.pc[st.t]);
    if x in s.free {
      if st.PopSwap? && x != s.free[0] {
        assert x in s.free[1..];
      } else if st.PushSwap? {
        assert x in [s.pc[st.t].slot] + s.free;
      }
    } else if x !in s.held {
      var u :| u in s.pc && Pushing(s.pc[u]) && s.pc[u].slot == x;
      if u != st.t {
        assert s'.pc[u] == s.pc[u];
      } else if st.PushSwap? {
        assert x in [x] + s.free;
      } else {
        assert Pushing(s'.pc[u]) && s'.pc[u].slot == x;
      }
    } else if st.PushStart? {
      assert Pushing(s'.pc[st.t]);
    }
  }

  // No slot of the list is ever lost.
  lemma {:induction false} NoSlotLost(s: State, steps: seq<Step>, s': State, x: nat)
    requires Inv(s) && Run(s, steps, s') && Somewhere(s, x)
    ensures Somewhere(s', x)
    decreases |steps|
  {
    hide Inv, Apply, Enabled, Somewhere;
    if steps != [] {
      InvStep(s, steps[0]);
      StaysSomewhere(s, steps[0], x);
      NoSlotLost(Apply(s, steps[0]), steps[1..], s', x);
    }
  }
}
