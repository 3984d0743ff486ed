/**
 Hazard reclamation over whole runs: a retired node is always in one place; what Protect returned is
 not freed while the guard keeps it, through any number of parks and worker changes, provided every
 orphan a sweep frees was retired before that scan's walk; and the two arrangements in which a held
 node is freed.
 */
module HazardReclaimTheorems {
  import opened HazardReclaim
  import opened HazardReclaimSafety

  ghost predicate Init(s: State)
  {
    && (forall c :: c in s.cells <==> c.row in s.rows && c.k < s.perRow)
    && (forall c :: c in s.cells ==> s.cells[c].Null?)
    && (forall n :: n in s.status ==> s.status[n].Live?)
    && (forall l :: l in s.src && s.src[l].Node? ==> s.src[l].n in s.status)
    && (forall r :: r in s.rd ==> !s.rd[r].open && s.rd[r].pc.Quiet? && s.rd[r].hold == map[])
    && s.pc.Keys == s.bag.Keys && (forall t :: t in s.pc ==> s.pc[t].Rest? && s.bag[t] == {})
    && s.dead == {} && s.orphans == {} && s.orphanCount == 0 && s.lock == {}
  }

  ghost predicate Run(s: State, steps: seq<Step>, s': State)
    decreases |steps|
  {
    if steps == [] then s' == s
    else Enabled(s, steps[0]) && Run(Apply(s, steps[0]), steps[1..], s')
  }

  // Every orphan a sweep frees was retired before the walk of that scan began.
  ghost predicate TimelyRun(s: State, steps: seq<Step>, s': State)
    decreases |steps|
  {
    if steps == [] then s' == s
    else Enabled(s, steps[0]) && Timely(s, steps[0]) && TimelyRun(Apply(s, steps[0]), steps[1..], s')
  }

  // ---- the accounting, in every run -------------------------------------------------------------------------

  lemma {:induction false} ShelfRun(s: State, steps: seq<Step>, s': State)
    requires Shelf(s) && Run(s, steps, s')
    ensures Shelf(s')
    decreases |steps|
  {
    hide Shelf, Apply, Enabled;
    if steps != [] {
      ShelfStep(s, steps[0]);
      ShelfRun(Apply(s, steps[0]), steps[1..], s');
    }
  }

  // A retired node is in one batch, in one exiting thread's hand, among the orphans or freed, and in
  // only one of these; so it is freed at most once and never lost.
  lemma RetiredIsInOnePlace(s0: State, steps: seq<Step>, s: State, n: nat)
    requires Init(s0) && Run(s0, steps, s) && n in s.status
    ensures forall t :: t in s.bag ==> (n in s.bag[t] <==> s.status[n] == Bagged(t))
    ensures forall t :: t in s.pc ==> (n in Hand(s.pc[t]) <==> s.status[n] == InHand(t))
    ensures n in s.orphans <==> s.status[n].Orphaned?
    ensures s.status[n].Bagged? || s.status[n].InHand? ==> s.status[n].t in s.bag && s.status[n].t in s.pc
  {
    InitShelf(s0);
    hide Init, Run, Batches, Locked, Sources;
    ShelfRun(s0, steps, s);
  }

  lemma InitShelf(s: State)
    requires Init(s)
    ensures Shelf(s)
  {
  }

  // What a scan takes for retired before its walk has been retired.
  ghost predicate Past(pc: map<nat, Pc>, status: map<nat, Status>) {
    forall t :: t in pc && Scans(pc[t]) ==> pc[t].prior <= GoneFrom(status)
  }

  lemma PastMove(pc: map<nat, Pc>, status: map<nat, Status>, status': map<nat, Status>, t: nat, p: Pc)
    requires Past(pc, status) && t in pc && GoneFrom(status) <= GoneFrom(status')
    requires Scans(p) ==> p.prior <= GoneFrom(status') || (Scans(pc[t]) && p.prior == pc[t].prior)
    ensures Past(pc[t := p], status')
  {
    hide GoneFrom;
  }

  lemma ScanPast(s: State, st: Step, s': State)
    requires Past(s.pc, s.status) && ScanEnabled(s, st) && s' == ScanApply(s, st)
    ensures Past(s'.pc, s'.status)
  {
    hide Past;
    assert GoneFrom(s.status) <= GoneFrom(s'.status) by { if st.Cull? {} else if st.Sweep? {} else {} }
    ScanFacts(s, st, s');
    hide GoneFrom;
    PastMove(s.pc, s.status, s'.status, st.t, s'.pc[st.t]);
  }

  lemma RetirePast(s: State, st: Step, s': State)
    requires Past(s.pc, s.status) && RetireEnabled(s, st) && s' == RetireApply(s, st)
    ensures Past(s'.pc, s'.status)
  {
    if st.Alloc? || st.Write? {
      hide Restatus;
      assert GoneFrom(s'.status) == GoneFrom(s.status);
    } else {
      hide Past, RetireApply;
      RetireFacts(s, st, s');
      RetireMovesOn(s, st, s');
      PastMove(s.pc, s.status, s'.status, st.t, s'.pc[st.t]);
    }
  }

  lemma {:induction false} PastRun(s: State, steps: seq<Step>, s': State)
    requires Past(s.pc, s.status) && Run(s, steps, s')
    ensures Past(s'.pc, s'.status)
    decreases |steps|
  {
    hide Past, ReaderApply, RetireApply, ScanApply, ReaderEnabled, RetireEnabled, ScanEnabled;
    if steps != [] {
      if ReaderEnabled(s, steps[0]) {
        ReaderFrame(s, steps[0]);
      } else if RetireEnabled(s, steps[0]) {
        RetirePast(s, steps[0], Apply(s, steps[0]));
      } else {
        ScanPast(s, steps[0], Apply(s, steps[0]));
      }
      PastRun(Apply(s, steps[0]), steps[1..], s');
    }
  }

  // ---- safety ----------------------------------------------------------------------------------------------

  lemma {:induction false} InvRun(s: State, steps: seq<Step>, s': State)
    requires Core(s) && TimelyRun(s, steps, s')
    ensures Core(s')
    decreases |steps|
  {
    hide Core, Apply, Enabled, Timely;
    if steps != [] {
      CoreStep(s, steps[0]);
      InvRun(Apply(s, steps[0]), steps[1..], s');
    }
  }

  lemma InitCore(s: State)
    requires Init(s) && s.byReader
    ensures Core(s)
  {
  }

  lemma Reachable(s0: State, steps: seq<Step>, s: State)
    requires Init(s0) && s0.byReader && TimelyRun(s0, steps, s)
    ensures Core(s)
  {
    hide Init, Core;
    InitCore(s0);
    InvRun(s0, steps, s);
  }

  // What Protect returned and the guard has not dropped is still named by the guard's cell, on
  // whatever worker the reader is or was, and has not been freed.
  lemma HeldIsNotFreed(s0: State, steps: seq<Step>, s: State, r: nat, k: nat)
    requires Init(s0) && s0.byReader && TimelyRun(s0, steps, s)
    requires r in s.rd && k in s.rd[r].hold
    ensures var n := s.rd[r].hold[k];
            && n in s.status && !s.status[n].Freed?
            && Cell(r, k) in s.cells && s.cells[Cell(r, k)] == Node(n)
  {
    hide Init, TimelyRun, AllScans, Shelf;
    Reachable(s0, steps, s);
    assert ReaderOk(s.cells, s.rows, s.perRow, r, s.rd[r]);
    assert Holds(s.rd[r], k, s.rd[r].hold[k]);
  }

  // The step that first frees a held node is the sweep of an orphan retired after that scan's walk
  // began.
  lemma OnlyLateOrphansHarm(s0: State, steps: seq<Step>, s: State, st: Step, r: nat, k: nat, n: nat)
    requires Init(s0) && s0.byReader && TimelyRun(s0, steps, s) && Enabled(s, st)
    requires r in Apply(s, st).rd && Holds(Apply(s, st).rd[r], k, n)
    requires n in Apply(s, st).status && Apply(s, st).status[n].Freed?
    ensures st.Sweep? && !Timely(s, st)
  {
    hide Init, TimelyRun, Core, Apply, Enabled, Holds;
    Reachable(s0, steps, s);
    if Timely(s, st) {
      CoreStep(s, st);
      ProtectedOf(Apply(s, st), r, k, n);
    }
  }

  lemma ProtectedOf(s: State, r: nat, k: nat, n: nat)
    requires Core(s) && r in s.rd && Holds(s.rd[r], k, n)
    ensures n in s.status && !s.status[n].Freed?
  {
    hide Readers, AllScans, Shelf;
  }

  // ---- when nothing is adopted during a scan ------------------------------------------------------------------

  // No step brings entries into the orphan store while some scan is under way.
  ghost predicate Calm(s: State, st: Step) { st.Move? ==> forall t :: t in s.pc ==> !Scans(s.pc[t]) }

  ghost predicate CalmRun(s: State, steps: seq<Step>, s': State)
    decreases |steps|
  {
    if steps == [] then s' == s
    else Enabled(s, steps[0]) && Calm(s, steps[0]) && CalmRun(Apply(s, steps[0]), steps[1..], s')
  }

  // Every orphan was retired before the walk of every scan under way.
  ghost predicate Settled(pc: map<nat, Pc>, orphans: set<nat>) {
    forall t :: t in pc && Scans(pc[t]) ==> orphans <= pc[t].prior
  }

  lemma SettledIsTimely(s: State, st: Step)
    requires Shelf(s) && Settled(s.pc, s.orphans) && Enabled(s, st)
    ensures Timely(s, st)
  {
    hide Shelf;
    if st.Sweep? {
      SweepLeft(s, st.t);
    }
  }

  lemma PcSettled(pc: map<nat, Pc>, orphans: set<nat>, t: nat, p: Pc)
    requires Settled(pc, orphans) && t in pc && (Scans(p) ==> Scans(pc[t]) && p.prior == pc[t].prior)
    ensures Settled(pc[t := p], orphans)
  {
  }

  lemma ScanSettled(s: State, st: Step)
    requires Shelf(s) && Settled(s.pc, s.orphans) && ScanEnabled(s, st)
    ensures Settled(ScanApply(s, st).pc, ScanApply(s, st).orphans)
  {
    hide Settled, Batches, Locked, Sources;
    if st.ScanStart? {
      StartSettled(s, st.t);
    } else {
      hide Sorted;
      var s' := ScanApply(s, st);
      PcSettled(s.pc, s.orphans, st.t, s'.pc[st.t]);
      FewerSettled(s'.pc, s.orphans, s'.orphans);
    }
  }

  lemma FewerSettled(pc: map<nat, Pc>, orphans: set<nat>, fewer: set<nat>)
    requires Settled(pc, orphans) && fewer <= orphans
    ensures Settled(pc, fewer)
  {
  }

  lemma StartSettled(s: State, t: nat)
    requires Settled(s.pc, s.orphans) && Sorted(s.status, s.pc, s.bag, s.orphans) && ScanEnabled(s, ScanStart(t))
    ensures Settled(ScanApply(s, ScanStart(t)).pc, s.orphans)
  {
  }

  lemma RetireSettled(s: State, st: Step)
    requires Settled(s.pc, s.orphans) && RetireEnabled(s, st) && Calm(s, st)
    ensures Settled(RetireApply(s, st).pc, RetireApply(s, st).orphans)
  {
    hide Restatus;
    if st.Alloc? {} else if st.Write? {} else if st.Move? {} else {}
  }

  lemma SettledStep(s: State, st: Step)
    requires Shelf(s) && Settled(s.pc, s.orphans) && Enabled(s, st) && Calm(s, st)
    ensures Settled(Apply(s, st).pc, Apply(s, st).orphans)
  {
    hide Shelf, Settled, ReaderApply, RetireApply, ScanApply, ReaderEnabled, RetireEnabled, ScanEnabled;
    if ReaderEnabled(s, st) {
      ReaderFrame(s, st);
    } else if RetireEnabled(s, st) {
      RetireSettled(s, st);
    } else {
      ScanSettled(s, st);
    }
  }

  // Such a run is timely, so HeldIsNotFreed speaks of it; worker- or reader-indexed alike.
  lemma {:induction false} CalmIsTimely(s: State, steps: seq<Step>, s': State)
    requires Shelf(s) && Settled(s.pc, s.orphans) && CalmRun(s, steps, s')
    ensures TimelyRun(s, steps, s')
    decreases |steps|
  {
    hide Shelf, Settled, Apply, Enabled, Timely, Calm;
    if steps != [] {
      SettledIsTimely(s, steps[0]);
      SettledStep(s, steps[0]);
      ShelfStep(s, steps[0]);
      CalmIsTimely(Apply(s, steps[0]), steps[1..], s');
    }
  }

  // ---- building runs --------------------------------------------------------------------------------------------

  lemma {:induction false} RunConcat(s: State, a: seq<Step>, s1: State, b: seq<Step>, s2: State)
    requires Run(s, a, s1) && Run(s1, b, s2)
    ensures Run(s, a + b, s2)
    decreases |a|
  {
    hide Enabled, Apply;
    if a == [] {
      assert a + b == b;
    } else {
      RunConcat(Apply(s, a[0]), a[1..], s1, b, s2);
      assert (a + b)[1..] == a[1..] + b;
    }
  }

  lemma ReaderRun(s0: State, a: seq<Step>, s: State, st: Step, s': State)
    requires Run(s0, a, s) && ReaderEnabled(s, st) && s' == ReaderApply(s, st)
    ensures Run(s0, a + [st], s')
  {
    hide ReaderApply, ReaderEnabled;
    assert Run(s', [], s') && [st][1..] == [];
    assert Run(s, [st], s');
    RunConcat(s0, a, s, [st], s');
  }

  lemma RetireRun(s0: State, a: seq<Step>, s: State, st: Step, s': State)
    requires Run(s0, a, s) && RetireEnabled(s, st) && s' == RetireApply(s, st)
    ensures Run(s0, a + [st], s')
  {
    hide RetireApply;
    assert Run(s', [], s') && [st][1..] == [];
    assert Run(s, [st], s');
    RunConcat(s0, a, s, [st], s');
  }

  lemma ScanRun(s0: State, a: seq<Step>, s: State, st: Step, s': State)
    requires Run(s0, a, s) && ScanEnabled(s, st) && s' == ScanApply(s, st)
    ensures Run(s0, a + [st], s')
  {
    hide ScanApply;
    assert Run(s', [], s') && [st][1..] == [];
    assert Run(s, [st], s');
    RunConcat(s0, a, s, [st], s');
  }

  lemma LoadsNode(s0: State, a: seq<Step>, s: State, r: nat, k: nat, loc: nat, n: nat)
    requires Run(s0, a, s) && Ready(s, r) && s.rd[r].open && k < s.perRow && loc in s.src && s.src[loc] == Node(n)
    ensures Run(s0, a + [Begin(r, k, loc)] + [Load(r)], SetReader(s, r, s.rd[r].(pc := Loaded(k, loc, Node(n)))))
  {
    hide Run;
    var d := s.rd[r];
    var s1 := SetReader(s, r, d.(pc := Trying(k, loc)));
    ReaderRun(s0, a, s, Begin(r, k, loc), s1);
    var s2 := SetReader(s, r, d.(pc := Loaded(k, loc, Node(n))));
    assert s1.rd[r := s2.rd[r]] == s2.rd;
    ReaderRun(s0, a + [Begin(r, k, loc)], s1, Load(r), s2);
  }

  function WithHeld(s: State, r: nat, k: nat, n: nat): (s': State)
    requires r in s.rd
  {
    var d := s.rd[r].(pc := Quiet, hold := (s.rd[r].hold - {k})[k := n]);
    s.(cells := s.cells[Cell(s.rd[r].row, k) := Node(n)], rd := s.rd[r := d])
  }

  lemma PublishesNode(s0: State, a: seq<Step>, s: State, r: nat, k: nat, loc: nat, n: nat)
    requires Run(s0, a, s) && Active(s, r) && loc in s.src && s.src[loc] == Node(n) && s.rd[r].pc == Loaded(k, loc, Node(n))
    ensures Run(s0, a + [Publish(r)] + [Reread(r)], WithHeld(s, r, k, n))
  {
    hide Run;
    var s3 := SetCell(s, r, k, Node(n), Published(k, loc, Node(n)));
    ReaderRun(s0, a, s, Publish(r), s3);
    var s' := WithHeld(s, r, k, n);
    assert s3.rd[r := s'.rd[r]] == s'.rd;
    ReaderRun(s0, a + [Publish(r)], s3, Reread(r), s');
  }

  // A reader with an open guard protects the node in loc.
  lemma Protects(s0: State, a: seq<Step>, s: State, r: nat, k: nat, loc: nat, n: nat) returns (a': seq<Step>)
    requires Run(s0, a, s) && Ready(s, r) && s.rd[r].open && k < s.perRow && loc in s.src && s.src[loc] == Node(n)
    ensures Run(s0, a', WithHeld(s, r, k, n)) && a' == a + [Begin(r, k, loc), Load(r), Publish(r), Reread(r)]
  {
    hide Run;
    LoadsNode(s0, a, s, r, k, loc, n);
    var s2 := SetReader(s, r, s.rd[r].(pc := Loaded(k, loc, Node(n))));
    PublishesNode(s0, a + [Begin(r, k, loc)] + [Load(r)], s2, r, k, loc, n);
    a' := a + [Begin(r, k, loc)] + [Load(r)] + [Publish(r)] + [Reread(r)];
    assert WithHeld(s2, r, k, n).rd == WithHeld(s, r, k, n).rd;
  }

  // ---- an orphan that comes late ------------------------------------------------------------------------------------

  // The node leaves its only location, is retired by u and, as u exits, adopted.
  lemma ExitsWith(s0: State, a: seq<Step>, s: State, u: nat, loc: nat, n: nat) returns (a': seq<Step>, s': State)
    requires Run(s0, a, s) && AtRest(s, u) && u !in s.dead && s.lock == {}
    requires n in s.status && s.status[n].Live? && loc in s.src
    requires forall l :: l in s.src && s.src[l] == Node(n) ==> l == loc
    ensures Run(s0, a', s') && s'.rd == s.rd && u in s.pc && s'.pc == s.pc && s'.lock == {}
    ensures n in s'.orphans && n in s'.status && s'.orphanCount == |s'.orphans|
  {
    hide Run;
    var s1 := s.(src := s.src[loc := Null]);
    RetireRun(s0, a, s, Write(loc, Null), s1);
    var s2 := RetireApply(s1, Retire(u, n));
    RetireRun(s0, a + [Write(loc, Null)], s1, Retire(u, n), s2);
    assert s2 == s1.(status := s1.status[n := Bagged(u)], bag := s1.bag[u := s1.bag[u] + {n}]);
    a', s' := Exits(s0, a + [Write(loc, Null)] + [Retire(u, n)], s2, u, n);
  }

  lemma Exits(s0: State, a: seq<Step>, s: State, u: nat, n: nat) returns (a': seq<Step>, s': State)
    requires Run(s0, a, s) && AtRest(s, u) && u !in s.dead && s.lock == {} && n in s.bag[u] && n in s.status
    ensures Run(s0, a', s') && s'.rd == s.rd && s'.pc == s.pc && s'.lock == {}
    ensures n in s'.orphans && n in s'.status && s'.orphanCount == |s'.orphans|
  {
    hide Run;
    var s1 := RetireApply(s, Exit(u));
    RetireRun(s0, a, s, Exit(u), s1);
    var s2 := RetireApply(s1, Move(u));
    RetireRun(s0, a + [Exit(u)], s1, Move(u), s2);
    s' := RetireApply(s2, Store(u));
    RetireRun(s0, a + [Exit(u)] + [Move(u)], s2, Store(u), s');
    a' := a + [Exit(u)] + [Move(u)] + [Store(u)];
    assert s'.pc == s.pc;
  }

  lemma Sweeps(s0: State, a: seq<Step>, s: State, t: nat, n: nat) returns (a': seq<Step>, s2: State, s': State)
    requires Run(s0, a, s) && t in s.pc && s.pc[t].OrphanGate? && n !in s.pc[t].named && s.lock == {}
    requires n in s.orphans && n in s.status && s.orphanCount == |s.orphans|
    ensures Run(s0, a', s2) && Enabled(s2, Sweep(t, n)) && s' == Apply(s2, Sweep(t, n))
    ensures n !in s.pc[t].prior ==> !Timely(s2, Sweep(t, n))
    ensures s'.rd == s.rd && n in s'.status && s'.status[n].Freed?
  {
    hide Run;
    var s1 := ScanApply(s, PassGate(t));
    ScanRun(s0, a, s, PassGate(t), s1);
    s2 := ScanApply(s1, LockSweep(t));
    ScanRun(s0, a + [PassGate(t)], s1, LockSweep(t), s2);
    s' := ScanApply(s2, Sweep(t, n));
    a' := a + [PassGate(t)] + [LockSweep(t)];
  }

  // The other half: from every reachable state in which the scan of t has done its walk, a reader is
  // between calls in an open guard, and another thread can still retire and exit, a run leads on to a
  // sweep that is not timely and frees a held node.
  lemma LateOrphanFreesHeld(s0: State, before: seq<Step>, s: State, t: nat, u: nat, r: nat, k: nat, loc: nat, n: nat)
    returns (a: seq<Step>, last: State, s': State)
    requires Init(s0) && Run(s0, before, s)
    requires t in s.pc && s.pc[t].OrphanGate? && n !in s.pc[t].named && s.lock == {}
    requires Ready(s, r) && s.rd[r].open && k < s.perRow
    requires loc in s.src && s.src[loc] == Node(n) && n in s.status && s.status[n].Live?
    requires forall l :: l in s.src && s.src[l] == Node(n) ==> l == loc
    requires AtRest(s, u) && u !in s.dead
    ensures Run(s, a, last) && Enabled(last, Sweep(t, n)) && !Timely(last, Sweep(t, n)) && s' == Apply(last, Sweep(t, n))
    ensures r in s'.rd && Holds(s'.rd[r], k, n) && n in s'.status && s'.status[n].Freed?
  {
    assert Run(s, [], s);
    hide Run, RetireApply, ScanApply, ReaderApply, Apply, Timely;
    PastRun(s0, before, s);
    var a1 := Protects(s, [], s, r, k, loc, n);
    var s1 := WithHeld(s, r, k, n);
    var a2, s2 := ExitsWith(s, a1, s1, u, loc, n);
    a, last, s' := Sweeps(s, a2, s2, t, n);
  }

  // A table of one cell, naming nothing: t's scan frees the one node in its batch.
  lemma ScansAlone(s0: State, a: seq<Step>, s: State, t: nat, n: nat, c: Cell) returns (a': seq<Step>, s': State)
    requires Run(s0, a, s) && AtRest(s, t) && t !in s.dead && s.bag[t] == {n} && n in s.status
    requires s.cells.Keys == {c} && s.cells[c] == Null
    ensures Run(s0, a', s') && a' == a + [ScanStart(t), Walk(t, c), WalkEnd(t), Cull(t, n)]
    ensures t in s'.pc && s'.pc[t].Culling? && s'.pc[t].named == {} && s'.pc[t].left == {}
    ensures s' == s.(pc := s.pc[t := s'.pc[t]], bag := s.bag[t := {}], status := s.status[n := Freed])
  {
    hide Run;
    var s1 := ScanApply(s, ScanStart(t));
    ScanRun(s0, a, s, ScanStart(t), s1);
    var s2 := ScanApply(s1, Walk(t, c));
    ScanRun(s0, a + [ScanStart(t)], s1, Walk(t, c), s2);
    assert {c} - {c} == {} && {n} - {n} == {};
    assert s2 == s.(pc := s.pc[t := Walking({}, {}, s2.pc[t].prior)]);
    a', s' := CullsAlone(s0, a + [ScanStart(t)] + [Walk(t, c)], s2, t, n);
    assert s.bag[t] - {n} == {};
  }

  lemma CullsAlone(s0: State, a: seq<Step>, s: State, t: nat, n: nat) returns (a': seq<Step>, s': State)
    requires Run(s0, a, s) && t in s.pc && t in s.bag && s.bag[t] == {n} && n in s.status
    requires s.pc[t].Walking? && s.pc[t].named == {} && s.pc[t].todo == {}
    ensures Run(s0, a', s') && a' == a + [WalkEnd(t), Cull(t, n)]
    ensures t in s'.pc && s'.pc[t].Culling? && s'.pc[t].named == {} && s'.pc[t].left == {}
    ensures s' == s.(pc := s.pc[t := s'.pc[t]], bag := s.bag[t := {}], status := s.status[n := Freed])
  {
    hide Run;
    var s1 := ScanApply(s, WalkEnd(t));
    ScanRun(s0, a, s, WalkEnd(t), s1);
    s' := ScanApply(s1, Cull(t, n));
    ScanRun(s0, a + [WalkEnd(t)], s1, Cull(t, n), s');
    a' := a + [WalkEnd(t)] + [Cull(t, n)];
    assert {n} - {n} == {};
    assert s'.pc == s.pc[t := s'.pc[t]];
  }

  // Such a state is reached: thread 10 scans with node 6 in its batch, thread 11 then retires node 5,
  // which reader 0 has protected since the walk, and exits.
  lemma HeldCanBeFreed() returns (s0: State, a: seq<Step>, s: State)
    ensures Init(s0) && s0.byReader && Run(s0, a, s)
    ensures 0 in s.rd && Holds(s.rd[0], 0, 5) && 5 in s.status && s.status[5].Freed?
  {
    hide Run, RetireApply, ScanApply, ReaderApply;
    var d := Reader(false, 0, 0, false, Quiet, map[]);
    s0 := State(true, 1, {0}, map[Cell(0, 0) := Null], map[0 := Node(5)], map[0 := d], map[10 := Rest, 11 := Rest],
      map[10 := {}, 11 := {}], {}, {}, 0, {}, map[5 := Live, 6 := Live]);
    var s1, s2 := OpensAndRetires(s0, 6);
    var a3, s3 := ScansAlone(s0, [Open(0)] + [Retire(10, 6)], s2, 10, 6, Cell(0, 0));
    var s4 := s3.(pc := s3.pc[10 := OrphanGate({}, s3.pc[10].prior)]);
    CullEnds(s0, a3, s3, 10, s4);
    var a5, s5, s6 := LateOrphanFreesHeld(s0, a3 + [CullEnd(10)], s4, 10, 11, 0, 0, 0, 5);
    RunConcat(s0, a3 + [CullEnd(10)], s4, a5, s5);
    StepRun(s0, a3 + [CullEnd(10)] + a5, s5, Sweep(10, 5), s6);
    a, s := a3 + [CullEnd(10)] + a5 + [Sweep(10, 5)], s6;
  }

  lemma StepRun(s0: State, a: seq<Step>, s: State, st: Step, s': State)
    requires Run(s0, a, s) && Enabled(s, st) && s' == Apply(s, st)
    ensures Run(s0, a + [st], s')
  {
    hide Enabled, Apply;
    assert Run(s', [], s') && [st][1..] == [];
    assert Run(s, [st], s');
    RunConcat(s0, a, s, [st], s');
  }

  lemma CullEnds(s0: State, a: seq<Step>, s: State, t: nat, s': State)
    requires Run(s0, a, s) && t in s.pc && s.pc[t].Culling? && s.pc[t].left == {}
    requires s' == s.(pc := s.pc[t := OrphanGate(s.pc[t].named, s.pc[t].prior)])
    ensures Run(s0, a + [CullEnd(t)], s')
  {
    hide Run;
    ScanRun(s0, a, s, CullEnd(t), s');
  }

  lemma OpensAndRetires(s0: State, n: nat) returns (s1: State, s2: State)
    requires 0 in s0.rd && s0.rd[0] == Reader(false, 0, 0, false, Quiet, map[]) && 0 in s0.rows
    requires AtRest(s0, 10) && s0.dead == {} && n in s0.status && s0.status[n].Live? && Node(n) !in s0.src.Values
    ensures Run(s0, [Open(0)] + [Retire(10, n)], s2)
    ensures s2 == s0.(rd := s0.rd[0 := Reader(true, 0, 0, false, Quiet, map[])], status := s0.status[n := Bagged(10)],
                      bag := s0.bag[10 := s0.bag[10] + {n}])
  {
    hide Run;
    s1 := OpensFirst(s0);
    s2 := s1.(status := s0.status[n := Bagged(10)], bag := s0.bag[10 := s0.bag[10] + {n}]);
    RetireRun(s0, [Open(0)], s1, Retire(10, n), s2);
  }

  // ---- worker-indexed cells ------------------------------------------------------------------------------------------

  lemma {:induction false} NoMoveIsCalm(s: State, a: seq<Step>, s': State)
    requires Run(s, a, s') && forall i :: 0 <= i < |a| ==> !a[i].Move?
    ensures CalmRun(s, a, s')
    decreases |a|
  {
    hide Enabled, Apply;
    if a != [] {
      NoMoveIsCalm(Apply(s, a[0]), a[1..], s');
    }
  }

  // Reader 0 parks holding node 5; reader 1 resumes on the same worker and opens and closes a guard.
  lemma Displaced(s0: State, a: seq<Step>, s: State) returns (a': seq<Step>, s': State)
    requires Run(s0, a, s) && !s.byReader && s.rows == {0} && s.perRow == 1 && s.rd.Keys == {0, 1}
    requires !s.rd[0].parked && s.rd[1] == Reader(false, 0, 0, true, Quiet, map[])
    ensures Run(s0, a', s') && a' == a + [Park(0), Resume(1, 0), Open(1), Close(1), CloseCell(1)]
    ensures s'.rd.Keys == {0, 1} && s'.rd[0] == s.rd[0].(parked := true)
    ensures s' == s.(rd := s'.rd, cells := s.cells[Cell(0, 0) := Null])
  {
    hide Run;
    var s1 := s.(rd := s.rd[0 := s.rd[0].(parked := true)]);
    ReaderRun(s0, a, s, Park(0), s1);
    var s2 := s1.(rd := s1.rd[1 := Reader(false, 0, 0, false, Quiet, map[])]);
    ReaderRun(s0, a + [Park(0)], s1, Resume(1, 0), s2);
    a', s' := OpenClose(s0, a + [Park(0)] + [Resume(1, 0)], s2);
  }

  lemma OpenClose(s0: State, a: seq<Step>, s: State) returns (a': seq<Step>, s': State)
    requires Run(s0, a, s) && !s.byReader && s.rows == {0} && s.perRow == 1
    requires 1 in s.rd && s.rd[1] == Reader(false, 0, 0, false, Quiet, map[])
    ensures Run(s0, a', s') && a' == a + [Open(1), Close(1), CloseCell(1)]
    ensures s' == s.(rd := s.rd[1 := Reader(true, 0, 0, false, Closing(1), map[])], cells := s.cells[Cell(0, 0) := Null])
  {
    hide Run;
    var s3 := s.(rd := s.rd[1 := Reader(true, 0, 0, false, Quiet, map[])]);
    ReaderRun(s0, a, s, Open(1), s3);
    var s4 := s.(rd := s.rd[1 := Reader(true, 0, 0, false, Closing(0), map[])]);
    assert s3.rd[1 := s4.rd[1]] == s4.rd;
    ReaderRun(s0, a + [Open(1)], s3, Close(1), s4);
    s' := SetCell(s4, 1, 0, Null, Closing(1));
    ReaderRun(s0, a + [Open(1)] + [Close(1)], s4, CloseCell(1), s');
    a' := a + [Open(1)] + [Close(1)] + [CloseCell(1)];
    assert s'.rd == s.rd[1 := Reader(true, 0, 0, false, Closing(1), map[])];
  }

  lemma HolderDisplaced() returns (s0: State, a: seq<Step>, s: State)
    ensures Init(s0) && !s0.byReader && Run(s0, a, s)
    ensures a == [Open(0), Begin(0, 0, 0), Load(0), Publish(0), Reread(0), Park(0), Resume(1, 0), Open(1), Close(1), CloseCell(1)]
    ensures 0 in s.rd && Holds(s.rd[0], 0, 5) && s.cells == map[Cell(0, 0) := Null] && s.src == map[0 := Node(5)]
    ensures s.pc == map[10 := Rest] && s.bag == map[10 := {}] && s.dead == {} && s.status == map[5 := Live]
  {
    var d := Reader(false, 0, 0, false, Quiet, map[]);
    s0 := State(false, 1, {0}, map[Cell(0, 0) := Null], map[0 := Node(5)], map[0 := d, 1 := d.(parked := true)], map[10 := Rest],
      map[10 := {}], {}, {}, 0, {}, map[5 := Live]);
    a, s := HoldsAndIsDisplaced(s0);
  }

  lemma HoldsAndIsDisplaced(s0: State) returns (a: seq<Step>, s: State)
    requires !s0.byReader && s0.rows == {0} && s0.perRow == 1 && s0.rd.Keys == {0, 1} && 0 in s0.src && s0.src[0] == Node(5)
    requires s0.rd[0] == Reader(false, 0, 0, false, Quiet, map[]) && s0.rd[1] == Reader(false, 0, 0, true, Quiet, map[])
    ensures Run(s0, a, s)
    ensures a == [Open(0), Begin(0, 0, 0), Load(0), Publish(0), Reread(0), Park(0), Resume(1, 0), Open(1), Close(1), CloseCell(1)]
    ensures 0 in s.rd && Holds(s.rd[0], 0, 5) && s == s0.(rd := s.rd, cells := s0.cells[Cell(0, 0) := Null])
  {
    hide Run, ReaderApply, ReaderEnabled;
    var s1 := OpensFirst(s0);
    var a2 := Protects(s0, [Open(0)], s1, 0, 0, 0, 5);
    a, s := Displaced(s0, a2, WithHeld(s1, 0, 0, 5));
  }

  lemma OpensFirst(s0: State) returns (s1: State)
    requires 0 in s0.rd && s0.rd[0] == Reader(false, 0, 0, false, Quiet, map[]) && 0 in s0.rows
    ensures Run(s0, [Open(0)], s1) && s1 == s0.(rd := s0.rd[0 := Reader(true, 0, 0, false, Quiet, map[])])
  {
    assert Run(s0, [], s0);
    hide Run;
    s1 := s0.(rd := s0.rd[0 := Reader(true, 0, 0, false, Quiet, map[])]);
    ReaderRun(s0, [], s0, Open(0), s1);
    assert [] + [Open(0)] == [Open(0)];
  }

  // With cells indexed by worker, a run with no orphan in it frees a node a parked reader holds.
  lemma WorkerCellsFail() returns (s0: State, a: seq<Step>, s: State)
    ensures Init(s0) && !s0.byReader && CalmRun(s0, a, s)
    ensures 0 in s.rd && Holds(s.rd[0], 0, 5) && 5 in s.status && s.status[5].Freed?
  {
    hide Run, RetireApply, ScanApply, ReaderApply, CalmRun, Init;
    var a3, s3;
    s0, a3, s3 := HolderDisplaced();
    var s5 := RetiresHere(s0, a3, s3);
    assert {} + {5} == {5};
    a, s := ScansAlone(s0, a3 + [Write(0, Null)] + [Retire(10, 5)], s5, 10, 5, Cell(0, 0));
    NoMoveIsCalm(s0, a, s);
  }

  lemma RetiresHere(s0: State, a: seq<Step>, s: State) returns (s': State)
    requires Run(s0, a, s) && s.src == map[0 := Node(5)] && AtRest(s, 10) && s.dead == {} && 5 in s.status && s.status[5].Live?
    ensures Run(s0, a + [Write(0, Null)] + [Retire(10, 5)], s')
    ensures s' == s.(src := map[0 := Null], status := s.status[5 := Bagged(10)], bag := s.bag[10 := s.bag[10] + {5}])
  {
    hide Run;
    var s4 := s.(src := map[0 := Null]);
    RetireRun(s0, a, s, Write(0, Null), s4);
    s' := s4.(status := s.status[5 := Bagged(10)], bag := s.bag[10 := s.bag[10] + {5}]);
    RetireRun(s0, a + [Write(0, Null)], s4, Retire(10, 5), s');
  }
}
