/**
 When the minimum over the participants falls.  It does not only rise: a reader that has loaded the
 epoch and not yet stored it lowers it when it does, and nothing else can.
 */
module EpochReclaimMinimum {
  import opened EpochReclaim
  import opened EpochReclaimTheorems

  // A scan of the participants at this moment would return m or more.
  ghost predicate AtLeast(s: State, m: nat) {
    m <= s.g && forall t :: t in s.guard && s.guard[t].In? ==> m <= s.guard[t].announced
  }

  // No reader is about to announce an epoch before m.
  ghost predicate NoLate(s: State, m: nat) { forall t :: t in s.guard && s.guard[t].Entering? ==> m <= s.guard[t].e }

  // Every thread has its slot, its program counter and its bag.
  ghost predicate Complete(s: State) { s.guard.Keys == s.pc.Keys == s.bag.Keys }

  // What steps outside the guards do to what the minimum is taken over.
  lemma RetireFrame(s: State, st: Step)
    requires RetireEnabled(s, st)
    ensures var s' := RetireApply(s, st);
            s'.g == s.g && s'.guard == s.guard && s'.pc.Keys == s.pc.Keys && s'.bag.Keys == s.bag.Keys
  {
    hide Places;
    if st.Push? {} else if st.Spill? {} else if st.HandOver? {} else {}
  }

  lemma ReclaimFrame(s: State, st: Step)
    requires ReclaimEnabled(s, st)
    ensures var s' := ReclaimApply(s, st);
            s.g <= s'.g && s'.guard == s.guard && s'.pc.Keys == s.pc.Keys && s'.bag.Keys == s.bag.Keys
  {
    hide Without;
    if st.Drain? {} else if st.Sweep? {} else {}
  }

  lemma CompleteStep(s: State, st: Step)
    requires Complete(s) && Enabled(s, st)
    ensures Complete(Apply(s, st))
  {
    hide RetireApply, ReclaimApply;
    if GuardEnabled(s, st) {
    } else if RetireEnabled(s, st) {
      RetireFrame(s, st);
    } else {
      ReclaimFrame(s, st);
    }
  }

  lemma {:induction false} CompleteRun(s: State, steps: seq<Step>, s': State)
    requires Complete(s) && Run(s, steps, s')
    ensures Complete(s')
    decreases |steps|
  {
    hide Complete, Apply, Enabled;
    if steps != [] {
      CompleteStep(s, steps[0]);
      CompleteRun(Apply(s, steps[0]), steps[1..], s');
    }
  }

  lemma RisesStep(s: State, st: Step, m: nat)
    requires AtLeast(s, m) && NoLate(s, m) && Enabled(s, st)
    ensures AtLeast(Apply(s, st), m) && NoLate(Apply(s, st), m)
  {
    hide RetireApply, ReclaimApply;
    if GuardEnabled(s, st) {
    } else if RetireEnabled(s, st) {
      RetireFrame(s, st);
    } else {
      ReclaimFrame(s, st);
    }
  }

  lemma {:induction false} RisesRun(s: State, steps: seq<Step>, s': State, m: nat)
    requires AtLeast(s, m) && NoLate(s, m) && Run(s, steps, s')
    ensures AtLeast(s', m)
    decreases |steps|
  {
    hide AtLeast, NoLate, Apply, Enabled;
    if steps != [] {
      RisesStep(s, steps[0], m);
      RisesRun(Apply(s, steps[0]), steps[1..], s', m);
    }
  }

  // The store of a late reader takes the minimum below m.
  lemma LateStoreFalls(s: State, t: nat, m: nat)
    requires Complete(s) && t in s.guard && s.guard[t].Entering? && s.guard[t].e < m
    ensures Enabled(s, EnterStore(t)) && Run(s, [EnterStore(t)], Apply(s, EnterStore(t)))
    ensures !AtLeast(Apply(s, EnterStore(t)), m)
  {
    var s' := Apply(s, EnterStore(t));
    assert s'.guard[t].In? && s'.guard[t].announced == s.guard[t].e;
    assert [EnterStore(t)][1..] == [];
    assert Run(s', [], s');
  }

  /** From a reachable state in which the minimum is m or more it stays so, whatever happens, exactly if
      no reader has loaded an epoch before m and not yet stored it. */
  lemma MinimumStaysExactly(s0: State, before: seq<Step>, s: State, m: nat)
    requires Init(s0) && Run(s0, before, s) && AtLeast(s, m)
    ensures (forall steps, s' :: Run(s, steps, s') ==> AtLeast(s', m)) <==> NoLate(s, m)
  {
    hide Run, AtLeast;
    CompleteRun(s0, before, s);
    if NoLate(s, m) {
      forall steps, s' | Run(s, steps, s')
        ensures AtLeast(s', m)
      {
        RisesRun(s, steps, s', m);
      }
    } else {
      var t :| t in s.guard && s.guard[t].Entering? && s.guard[t].e < m;
      hide Apply, Enabled;
      LateStoreFalls(s, t, m);
      assert Run(s, [EnterStore(t)], Apply(s, EnterStore(t)));
    }
  }

  // ---- a reachable fall --------------------------------------------------------------------------------

  lemma {:induction false} RunSnoc(s0: State, steps: seq<Step>, s: State, st: Step)
    requires Run(s0, steps, s) && Enabled(s, st)
    ensures Run(s0, steps + [st], Apply(s, st))
    decreases |steps|
  {
    hide Enabled, Apply;
    if steps == [] {
      assert [st][1..] == [];
      assert Run(Apply(s, st), [], Apply(s, st));
    } else {
      RunSnoc(Apply(s0, steps[0]), steps[1..], s, st);
      assert (steps + [st])[1..] == steps[1..] + [st];
    }
  }

  // Two threads: 1 has retired a node and ticks while 0 has loaded the epoch and not yet stored it.  The
  // scan of 1 is over, with minimum 1, when 0 stores epoch 0.
  lemma MinimumCanFall() returns (s0: State, steps: seq<Step>, s: State)
    ensures Init(s0) && Run(s0, steps, s) && 1 in s.pc && s.pc[1] == Scanning(1, {}) && AtLeast(s, 1)
    ensures Enabled(s, EnterStore(0)) && !AtLeast(Apply(s, EnterStore(0)), 1)
    ensures var s' := Apply(s, EnterStore(0)); s'.pc == s.pc && 0 in s'.guard && s'.guard[0].In? && s'.guard[0].announced == 0
  {
    hide Run;
    s0 := State(0, map[], map[0 := Live], map[0 := Out, 1 := Out], map[0 := Idle, 1 := Idle], map[0 := [], 1 := []],
      {}, [], 0, {}, 0, {}, {});
    assert Run(s0, [], s0) by { AtOnce(s0); }
    var r, s1 := RetireOne(s0, [], s0);
    var q, s2 := TickOne(s0, r, s1);
    steps, s := ScanAll(s0, q, s2);
    CompleteRun(s0, steps, s);
    LateStoreFalls(s, 0, 1);
  }

  lemma AtOnce(s: State)
    ensures Run(s, [], s)
  {
  }

  lemma RetireOne(s0: State, r: seq<Step>, s: State) returns (r': seq<Step>, s': State)
    requires Run(s0, r, s)
    requires s.g == 0 && s.dead == {} && 0 in s.place && s.place[0].Live? && Known(s, 1) && s.pc[1].Idle? && s.bag[1] == []
    ensures Run(s0, r', s') && s'.g == 0 && s'.dead == {} && s'.guard == s.guard && Known(s', 1)
    ensures s'.pc[1].Idle? && s'.bag[1] != [] && s.pc.Keys <= s'.pc.Keys && s.bag.Keys <= s'.bag.Keys
  {
    hide Places, Run;
    var s1 := s.(unlinkedAt := s.unlinkedAt[0 := 0], place := s.place[0 := Loose(1)], pc := s.pc[1 := Detached(0)]);
    assert s1 == Apply(s, Unlink(1, 0));
    RunSnoc(s0, r, s, Unlink(1, 0));
    var s2 := s1.(pc := s1.pc[1 := Stamped(0, 0)]);
    assert s2 == Apply(s1, Stamp(1));
    RunSnoc(s0, r + [Unlink(1, 0)], s1, Stamp(1));
    var s3 := s2.(bag := s2.bag[1 := [Entry(0, 0)]], place := s2.place[0 := Bagged(1)], pc := s2.pc[1 := Counting(0)]);
    assert s3 == Apply(s2, Push(1)) by { assert s2.bag[1] + [Entry(0, 0)] == [Entry(0, 0)]; }
    RunSnoc(s0, r + [Unlink(1, 0)] + [Stamp(1)], s2, Push(1));
    RunSnoc(s0, r + [Unlink(1, 0)] + [Stamp(1)] + [Push(1)], s3, Count(1));
    r', s' := r + [Unlink(1, 0)] + [Stamp(1)] + [Push(1)] + [Count(1)], Apply(s3, Count(1));
  }

  lemma RunEnter(s0: State, r: seq<Step>, s: State, s': State)
    requires Run(s0, r, s) && GuardEnabled(s, EnterLoad(0)) && s' == GuardApply(s, EnterLoad(0))
    ensures Run(s0, r + [EnterLoad(0)], s')
  {
    hide Run;
    RunSnoc(s0, r, s, EnterLoad(0));
  }

  lemma RunReclaim(s0: State, r: seq<Step>, s: State, st: Step, s': State)
    requires Run(s0, r, s) && ReclaimEnabled(s, st) && s' == ReclaimApply(s, st)
    ensures Run(s0, r + [st], s')
  {
    hide Run, ReclaimApply;
    RunSnoc(s0, r, s, st);
  }

  lemma TickOne(s0: State, r: seq<Step>, s: State) returns (r': seq<Step>, s': State)
    requires Run(s0, r, s) && s.g == 0 && s.guard == map[0 := Out, 1 := Out] && s.dead == {}
    requires Known(s, 1) && s.pc[1].Idle? && s.bag[1] != [] && 0 in s.pc && 0 in s.bag
    ensures Run(s0, r', s') && s'.g == 1 && s'.guard == map[0 := Entering(0), 1 := Out]
    ensures Known(s', 1) && Known(s', 0) && s'.pc[1].ScanLoad?
  {
    hide Run, Apply, Enabled, RetireApply;
    var s1 := s.(guard := s.guard[0 := Entering(0)]);
    RunEnter(s0, r, s, s1);
    var s2 := s1.(pc := s1.pc[1 := Advancing(0)]);
    RunReclaim(s0, r + [EnterLoad(0)], s1, TickStart(1), s2);
    var s3 := s2.(g := 1, pc := s2.pc[1 := Gate]);
    RunReclaim(s0, r + [EnterLoad(0)] + [TickStart(1)], s2, TickCas(1), s3);
    s' := s3.(pc := s3.pc[1 := ScanLoad]);
    RunReclaim(s0, r + [EnterLoad(0)] + [TickStart(1)] + [TickCas(1)], s3, PassGate(1), s');
    r' := r + [EnterLoad(0)] + [TickStart(1)] + [TickCas(1)] + [PassGate(1)];
  }

  lemma ScanAll(s0: State, r: seq<Step>, s: State) returns (r': seq<Step>, s': State)
    requires Run(s0, r, s) && s.g == 1 && s.guard == map[0 := Entering(0), 1 := Out]
    requires Known(s, 1) && Known(s, 0) && s.pc[1].ScanLoad?
    ensures Run(s0, r', s') && s'.g == s.g && s'.guard == s.guard && Known(s', 0) && Known(s', 1) && s'.pc[1] == Scanning(1, {})
  {
    hide Run, Apply, Enabled, RetireApply;
    assert s.guard.Keys == {0, 1} && {0, 1} - {0} == {1} && {1} - {1} == {};
    var s1 := s.(pc := s.pc[1 := Scanning(1, {0, 1})]);
    RunReclaim(s0, r, s, ScanStart(1), s1);
    var s2 := s1.(pc := s1.pc[1 := Scanning(1, {1})]);
    RunReclaim(s0, r + [ScanStart(1)], s1, ScanSlot(1, 0), s2);
    s' := s2.(pc := s2.pc[1 := Scanning(1, {})]);
    RunReclaim(s0, r + [ScanStart(1)] + [ScanSlot(1, 0)], s2, ScanSlot(1, 1), s');
    r' := r + [ScanStart(1)] + [ScanSlot(1, 0)] + [ScanSlot(1, 1)];
  }
}
