/**
 What every reachable state of epoch reclamation keeps: an open guard's announced epoch, and every
 safe epoch a reclaimer has computed or is computing, is a lower bound on the unlinking epochs of
 all nodes such a guard can still read; every retired node is listed in exactly one place.
 */
module EpochReclaimSafety {
  import opened EpochReclaim

  ghost predicate Epochs(g: nat, ua: map<nat, nat>) { forall n :: n in ua ==> ua[n] <= g }

  // e is a lower bound for everything the guard may still read.
  ghost predicate Bounds(ua: map<nat, nat>, gone: set<nat>, e: nat) { forall n :: n in ua && n !in gone ==> e <= ua[n] }

  ghost predicate GuardOk(g: nat, ua: map<nat, nat>, k: Guard) {
    && (k.Entering? ==> k.e <= g)
    && (k.In? ==> k.announced <= g && k.gone <= ua.Keys && k.refs !! k.gone && Bounds(ua, k.gone, k.announced))
  }

  ghost predicate Guards(g: nat, ua: map<nat, nat>, guard: map<nat, Guard>) {
    forall t :: t in guard ==> GuardOk(g, ua, guard[t])
  }

  predicate HasMin(p: Pc) { p.Scanning? || p.Draining? || p.OrphanGate? || p.SweepLock? || p.Sweeping? }

  function Todo(p: Pc): (r: set<nat>) { if p.Scanning? then p.todo else {} }

  // m bounds what the guards on the slots already visited may read, and those that open later.
  ghost predicate MinOk(g: nat, ua: map<nat, nat>, guard: map<nat, Guard>, m: nat, todo: set<nat>) {
    && m <= g
    && forall u :: u in guard && u !in todo && guard[u].In? ==> Bounds(ua, guard[u].gone, m)
  }

  ghost predicate Scans(g: nat, ua: map<nat, nat>, guard: map<nat, Guard>, pc: map<nat, Pc>) {
    forall t :: t in pc && HasMin(pc[t]) ==> MinOk(g, ua, guard, pc[t].m, Todo(pc[t]))
  }

  // A deleted node was unlinked before every open guard announced.
  ghost predicate Fenced(place: map<nat, Place>, guard: map<nat, Guard>) {
    forall n, u :: n in place && place[n].Deleted? && u in guard && guard[u].In? ==> n in guard[u].gone
  }

  ghost predicate Placed(ua: map<nat, nat>, place: map<nat, Place>) {
    forall n :: n in ua <==> n in place && !place[n].Live?
  }

  ghost predicate HeldOk(place: map<nat, Place>, ua: map<nat, nat>, t: nat, p: Pc) {
    && (p.Detached? ==> p.n in place && place[p.n] == Loose(t))
    && (p.Stamped? ==> p.n in place && place[p.n] == Loose(t) && p.n in ua && ua[p.n] <= p.e)
    && (p.Spilling? ==> p.entry.ptr in place && place[p.entry.ptr] == Loose(t)
                        && p.entry.ptr in ua && ua[p.entry.ptr] <= p.entry.epoch)
  }

  ghost predicate Held(place: map<nat, Place>, ua: map<nat, nat>, pc: map<nat, Pc>) {
    forall t :: t in pc ==> HeldOk(place, ua, t, pc[t])
  }

  predicate Listed(v: seq<Entry>, n: nat) { exists i :: 0 <= i < |v| && v[i].ptr == n }

  // v lists exactly the nodes at p, once each, with an epoch read after their unlinking.
  ghost predicate ListOk(place: map<nat, Place>, ua: map<nat, nat>, v: seq<Entry>, p: Place) {
    && (forall i, j :: 0 <= i < j < |v| ==> v[i].ptr != v[j].ptr)
    && (forall i :: 0 <= i < |v| ==> v[i].ptr in place && place[v[i].ptr] == p)
    && (forall i :: 0 <= i < |v| ==> v[i].ptr in ua && ua[v[i].ptr] <= v[i].epoch)
    && (forall n :: n in place && place[n] == p ==> Listed(v, n))
  }

  ghost predicate Bags(place: map<nat, Place>, ua: map<nat, nat>, bag: map<nat, seq<Entry>>) {
    && (forall t :: t in bag ==> ListOk(place, ua, bag[t], Bagged(t)))
    && (forall n :: n in place && place[n].Bagged? ==> place[n].t in bag)
  }

  ghost predicate Core(s: State) {
    && Epochs(s.g, s.unlinkedAt)
    && Guards(s.g, s.unlinkedAt, s.guard)
    && Scans(s.g, s.unlinkedAt, s.guard, s.pc)
    && Fenced(s.place, s.guard)
    && Placed(s.unlinkedAt, s.place)
    && Held(s.place, s.unlinkedAt, s.pc)
    && Bags(s.place, s.unlinkedAt, s.bag)
    && ListOk(s.place, s.unlinkedAt, s.orphans, Orphaned)
  }

  // ---- guards ----------------------------------------------------------------------------------

  lemma GuardScans(g: nat, ua: map<nat, nat>, guard: map<nat, Guard>, pc: map<nat, Pc>, t: nat, k: Guard)
    requires Scans(g, ua, guard, pc) && t in guard
    requires k.In? ==> k.gone == ua.Keys || (guard[t].In? && k.gone == guard[t].gone)
    ensures Scans(g, ua, guard[t := k], pc)
  {
  }

  lemma GuardCore(s: State, st: Step)
    requires Core(s) && GuardEnabled(s, st)
    ensures Core(GuardApply(s, st))
  {
    hide Epochs, Scans, Held, Bags, ListOk;
    GuardScans(s.g, s.unlinkedAt, s.guard, s.pc, st.t, GuardApply(s, st).guard[st.t]);
    if st.EnterLoad? {} else if st.EnterStore? {} else if st.Acquire? {} else {}
  }

  // ---- lists of entries ------------------------------------------------------------------------

  lemma ListFrame(place: map<nat, Place>, place': map<nat, Place>, ua: map<nat, nat>, ua': map<nat, nat>, v: seq<Entry>, p: Place)
    requires ListOk(place, ua, v, p)
    requires forall n :: (n in place && place[n] == p) <==> (n in place' && place'[n] == p)
    requires forall n :: n in ua && n in place && place[n] == p ==> n in ua' && ua'[n] == ua[n]
    ensures ListOk(place', ua', v, p)
  {
  }

  lemma BagsFrame(place: map<nat, Place>, place': map<nat, Place>, ua: map<nat, nat>, ua': map<nat, nat>, bag: map<nat, seq<Entry>>)
    requires Bags(place, ua, bag)
    requires forall n, u :: (n in place && place[n] == Bagged(u)) <==> (n in place' && place'[n] == Bagged(u))
    requires forall n :: n in ua && n in place && place[n].Bagged? ==> n in ua' && ua'[n] == ua[n]
    ensures Bags(place', ua', bag)
  {
    hide ListOk;
    forall t | t in bag
      ensures ListOk(place', ua', bag[t], Bagged(t))
    {
      ListFrame(place, place', ua, ua', bag[t], Bagged(t));
    }
  }

  lemma ListGrow(place: map<nat, Place>, ua: map<nat, nat>, v: seq<Entry>, p: Place, e: Entry)
    requires ListOk(place, ua, v, p) && e.ptr in place && place[e.ptr] != p && e.ptr in ua && ua[e.ptr] <= e.epoch
    ensures ListOk(place[e.ptr := p], ua, v + [e], p)
  {
    var place' := place[e.ptr := p];
    var v' := v + [e];
    assert v'[|v|] == e;
    forall n | n in place' && place'[n] == p
      ensures Listed(v', n)
    {
      if n != e.ptr {
        assert Listed(v, n);
        var i :| 0 <= i < |v| && v[i].ptr == n;
        assert v'[i].ptr == n;
      }
    }
  }

  lemma ListShrink(place: map<nat, Place>, ua: map<nat, nat>, v: seq<Entry>, p: Place, i: nat)
    requires ListOk(place, ua, v, p) && i < |v| && p != Deleted
    ensures ListOk(place[v[i].ptr := Deleted], ua, Without(v, i), p)
  {
    var place' := place[v[i].ptr := Deleted];
    var v' := Without(v, i);
    forall j | 0 <= j < |v'|
      ensures v'[j] == v[if j < i then j else j + 1]
    {
    }
    forall n | n in place' && place'[n] == p
      ensures Listed(v', n)
    {
      assert Listed(v, n);
      var j :| 0 <= j < |v| && v[j].ptr == n;
      assert v'[if j < i then j else j - 1].ptr == n;
    }
  }

  lemma BagsChange(place: map<nat, Place>, place': map<nat, Place>, ua: map<nat, nat>, bag: map<nat, seq<Entry>>, t: nat, v: seq<Entry>)
    requires Bags(place, ua, bag) && t in bag && ListOk(place', ua, v, Bagged(t))
    requires forall n, u :: u != t ==> ((n in place && place[n] == Bagged(u)) <==> (n in place' && place'[n] == Bagged(u)))
    ensures Bags(place', ua, bag[t := v])
  {
    hide ListOk;
    var bag' := bag[t := v];
    forall u | u in bag'
      ensures ListOk(place', ua, bag'[u], Bagged(u))
    {
      if u != t {
        ListFrame(place, place', ua, ua, bag[u], Bagged(u));
      }
    }
    forall n | n in place' && place'[n].Bagged?
      ensures place'[n].t in bag'
    {
      if place'[n].t != t {
        assert place[n] == Bagged(place'[n].t);
      }
    }
  }

  // ---- retiring ----------------------------------------------------------------------------------

  lemma UnlinkGuards(g: nat, ua: map<nat, nat>, guard: map<nat, Guard>, n: nat)
    requires Guards(g, ua, guard) && n !in ua
    ensures Guards(g, ua[n := g], guard)
  {
  }

  lemma UnlinkScans(g: nat, ua: map<nat, nat>, guard: map<nat, Guard>, pc: map<nat, Pc>, n: nat)
    requires Scans(g, ua, guard, pc) && n !in ua
    ensures Scans(g, ua[n := g], guard, pc)
  {
  }

  lemma PcScans(g: nat, ua: map<nat, nat>, guard: map<nat, Guard>, pc: map<nat, Pc>, t: nat, p: Pc)
    requires Scans(g, ua, guard, pc)
    requires HasMin(p) ==> MinOk(g, ua, guard, p.m, Todo(p))
    ensures Scans(g, ua, guard, pc[t := p])
  {
    hide MinOk;
  }

  lemma PcHeld(place: map<nat, Place>, place': map<nat, Place>, ua: map<nat, nat>, ua': map<nat, nat>, pc: map<nat, Pc>, t: nat, p: Pc)
    requires Held(place, ua, pc) && HeldOk(place', ua', t, p)
    requires forall n :: n in place && place[n].Loose? && place[n].t != t ==> n in place' && place'[n] == place[n]
    requires forall n :: n in place && place[n].Loose? && place[n].t != t && n in ua ==> n in ua' && ua'[n] == ua[n]
    ensures Held(place', ua', pc[t := p])
  {
    var pc' := pc[t := p];
    forall u | u in pc'
      ensures HeldOk(place', ua', u, pc'[u])
    {
      if u != t {
        assert HeldOk(place, ua, u, pc[u]);
      }
    }
  }

  lemma UnlinkCore(s: State, st: Step)
    requires Core(s) && RetireEnabled(s, st) && (st.Unlink? || st.Alloc?)
    ensures Core(RetireApply(s, st))
  {
    hide Guards, Scans, Held, Bags, ListOk;
    var s' := RetireApply(s, st);
    BagsFrame(s.place, s'.place, s.unlinkedAt, s'.unlinkedAt, s.bag);
    ListFrame(s.place, s'.place, s.unlinkedAt, s'.unlinkedAt, s.orphans, Orphaned);
    if st.Unlink? {
      UnlinkGuards(s.g, s.unlinkedAt, s.guard, st.n);
      UnlinkScans(s.g, s.unlinkedAt, s.guard, s.pc, st.n);
      PcScans(s.g, s'.unlinkedAt, s.guard, s.pc, st.t, Detached(st.n));
      PcHeld(s.place, s'.place, s.unlinkedAt, s'.unlinkedAt, s.pc, st.t, Detached(st.n));
    } else {
      AllocHeld(s.place, s.unlinkedAt, s.pc, st.n);
    }
  }

  lemma AllocHeld(place: map<nat, Place>, ua: map<nat, nat>, pc: map<nat, Pc>, n: nat)
    requires Held(place, ua, pc) && n !in place
    ensures Held(place[n := Live], ua, pc)
  {
    forall t | t in pc
      ensures HeldOk(place[n := Live], ua, t, pc[t])
    {
      assert HeldOk(place, ua, t, pc[t]);
    }
  }

  lemma HeldOf(s: State, t: nat)
    requires Core(s) && t in s.pc
    ensures HeldOk(s.place, s.unlinkedAt, t, s.pc[t])
  {
    hide Epochs, Guards, Scans, Fenced, Placed, Bags, ListOk, HeldOk;
  }

  // A step of one thread that changes its pc and nothing the invariants of others speak of.
  lemma PcCore(s: State, t: nat, p: Pc)
    requires Core(s) && HeldOk(s.place, s.unlinkedAt, t, p)
    requires HasMin(p) ==> MinOk(s.g, s.unlinkedAt, s.guard, p.m, Todo(p))
    ensures Core(s.(pc := s.pc[t := p]))
  {
    hide Epochs, Guards, Scans, Fenced, Placed, Bags, ListOk, Held, HeldOk, MinOk;
    PcScans(s.g, s.unlinkedAt, s.guard, s.pc, t, p);
    PcHeld(s.place, s.place, s.unlinkedAt, s.unlinkedAt, s.pc, t, p);
  }

  // The fields no invariant of this module reads.
  lemma CoreRest(s: State, dead: set<nat>, orphanCount: nat, lock: set<nat>, retiredCount: int, added: set<nat>, subtracted: set<nat>)
    requires Core(s)
    ensures Core(s.(dead := dead, orphanCount := orphanCount, lock := lock, retiredCount := retiredCount, added := added,
                    subtracted := subtracted))
  {
    hide Epochs, Guards, Scans, Fenced, Placed, Bags, ListOk, Held;
  }

  lemma PushCore(s: State, t: nat)
    requires Core(s) && RetireEnabled(s, Push(t))
    ensures Core(RetireApply(s, Push(t)))
  {
    hide Epochs, Guards, Scans, Bags, ListOk, Held;
    var e := Entry(s.pc[t].n, s.pc[t].e);
    HeldOf(s, t);
    if t in s.dead {
      PcCore(s, t, Spilling(e));
    } else {
      var place' := s.place[e.ptr := Bagged(t)];
      BagOf(s, t);
      ListGrow(s.place, s.unlinkedAt, s.bag[t], Bagged(t), e);
      BagsChange(s.place, place', s.unlinkedAt, s.bag, t, s.bag[t] + [e]);
      ListFrame(s.place, place', s.unlinkedAt, s.unlinkedAt, s.orphans, Orphaned);
      PcScans(s.g, s.unlinkedAt, s.guard, s.pc, t, Counting(e.ptr));
      PcHeld(s.place, place', s.unlinkedAt, s.unlinkedAt, s.pc, t, Counting(e.ptr));
    }
  }

  lemma BagOf(s: State, t: nat)
    requires Core(s) && t in s.bag
    ensures ListOk(s.place, s.unlinkedAt, s.bag[t], Bagged(t))
  {
    hide Epochs, Guards, Scans, Fenced, Placed, ListOk, Held;
  }

  lemma SpillCore(s: State, t: nat)
    requires Core(s) && RetireEnabled(s, Spill(t))
    ensures Core(RetireApply(s, Spill(t)))
  {
    hide Epochs, Guards, Scans, Bags, ListOk, Held;
    var e := s.pc[t].entry;
    HeldOf(s, t);
    var place' := s.place[e.ptr := Orphaned];
    ListGrow(s.place, s.unlinkedAt, s.orphans, Orphaned, e);
    BagsFrame(s.place, place', s.unlinkedAt, s.unlinkedAt, s.bag);
    PcScans(s.g, s.unlinkedAt, s.guard, s.pc, t, Storing(e.ptr));
    PcHeld(s.place, place', s.unlinkedAt, s.unlinkedAt, s.pc, t, Storing(e.ptr));
  }

  // ---- handing a bag over ---------------------------------------------------------------------------

  lemma ListJoin(place: map<nat, Place>, place': map<nat, Place>, ua: map<nat, nat>, v: seq<Entry>, p: Place, w: seq<Entry>, q: Place)
    requires ListOk(place, ua, v, p) && ListOk(place, ua, w, q) && p != q
    requires forall n :: n in place' <==> n in place
    requires forall n :: n in place ==> place'[n] == if place[n] == q then p else place[n]
    ensures ListOk(place', ua, v + w, p) && ListOk(place', ua, [], q)
  {
    var r := v + w;
    forall i | 0 <= i < |r|
      ensures r[i] == if i < |v| then v[i] else w[i - |v|]
    {
    }
    forall n | n in place' && place'[n] == p
      ensures Listed(r, n)
    {
      if place[n] == p {
        assert Listed(v, n);
        var i :| 0 <= i < |v| && v[i].ptr == n;
        assert r[i].ptr == n;
      } else {
        assert Listed(w, n);
        var i :| 0 <= i < |w| && w[i].ptr == n;
        assert r[|v| + i].ptr == n;
      }
    }
  }

  lemma HandedOver(place: map<nat, Place>, ua: map<nat, nat>, w: seq<Entry>, t: nat)
    requires ListOk(place, ua, w, Bagged(t))
    ensures var place' := Places(place, w, Orphaned);
            && (forall n :: n in place' <==> n in place)
            && (forall n :: n in place ==> place'[n] == if place[n] == Bagged(t) then Orphaned else place[n])
  {
    hide Places;
    forall n | n in place && place[n] == Bagged(t)
      ensures exists i :: 0 <= i < |w| && w[i].ptr == n
    {
      assert Listed(w, n);
    }
  }

  lemma HandOverCore(s: State, t: nat)
    requires Core(s) && RetireEnabled(s, HandOver(t))
    ensures Core(RetireApply(s, HandOver(t)))
  {
    hide Epochs, Guards, Scans, Bags, ListOk, Held, Places;
    var place' := Places(s.place, s.bag[t], Orphaned);
    BagOf(s, t);
    HandedOver(s.place, s.unlinkedAt, s.bag[t], t);
    ListJoin(s.place, place', s.unlinkedAt, s.orphans, Orphaned, s.bag[t], Bagged(t));
    BagsChange(s.place, place', s.unlinkedAt, s.bag, t, []);
    PcScans(s.g, s.unlinkedAt, s.guard, s.pc, t, StoringLast);
    PcHeld(s.place, place', s.unlinkedAt, s.unlinkedAt, s.pc, t, StoringLast);
  }

  lemma RetireCore(s: State, st: Step)
    requires Core(s) && RetireEnabled(s, st)
    ensures Core(RetireApply(s, st))
  {
    hide Core;
    if st.Alloc? || st.Unlink? {
      UnlinkCore(s, st);
    } else if st.Push? {
      PushCore(s, st.t);
    } else if st.Spill? {
      SpillCore(s, st.t);
    } else if st.HandOver? {
      HandOverCore(s, st.t);
    } else {
      RetireRest(s, st);
    }
  }

  lemma StampOk(s: State, t: nat)
    requires Core(s) && t in s.pc && s.pc[t].Detached?
    ensures HeldOk(s.place, s.unlinkedAt, t, Stamped(s.pc[t].n, s.g))
  {
    hide Guards, Scans, Bags, ListOk, Held, Fenced;
    HeldOf(s, t);
  }

  lemma RetireRest(s: State, st: Step)
    requires Core(s) && RetireEnabled(s, st) && (st.Stamp? || st.Store? || st.Count? || st.Exit?)
    ensures Core(RetireApply(s, st))
  {
    hide Core, Places;
    var s' := RetireApply(s, st);
    if st.Stamp? { StampOk(s, st.t); }
    PcCore(s, st.t, s'.pc[st.t]);
    CoreRest(s.(pc := s'.pc), s'.dead, s'.orphanCount, s'.lock, s'.retiredCount, s'.added, s'.subtracted);
  }

  // ---- reclaiming ----------------------------------------------------------------------------------

  lemma TickCore(s: State, t: nat)
    requires Core(s) && ReclaimEnabled(s, TickCas(t))
    ensures Core(ReclaimApply(s, TickCas(t)))
  {
    hide Core;
    AdvanceCore(s, ReclaimApply(s, TickCas(t)).g);
    PcCore(s.(g := ReclaimApply(s, TickCas(t)).g), t, Gate);
  }

  lemma AdvanceCore(s: State, g: nat)
    requires Core(s) && s.g <= g
    ensures Core(s.(g := g))
  {
    hide Fenced, Placed, Held, Bags, ListOk;
  }

  lemma MinOf(s: State, t: nat)
    requires Core(s) && t in s.pc && HasMin(s.pc[t])
    ensures MinOk(s.g, s.unlinkedAt, s.guard, s.pc[t].m, Todo(s.pc[t]))
  {
    hide Epochs, Guards, Fenced, Placed, Held, Bags, ListOk, MinOk;
  }

  // Visiting one slot: the minimum comes down to its epoch and from then on bounds its guard.
  lemma ScanSlotMin(s: State, t: nat, u: nat)
    requires Core(s) && ReclaimEnabled(s, ScanSlot(t, u))
    ensures ReclaimApply(s, ScanSlot(t, u)).pc[t].Scanning?
    ensures var p := ReclaimApply(s, ScanSlot(t, u)).pc[t]; MinOk(s.g, s.unlinkedAt, s.guard, p.m, p.todo)
  {
    hide Epochs, Scans, Fenced, Placed, Held, Bags, ListOk;
    MinOf(s, t);
    assert GuardOk(s.g, s.unlinkedAt, s.guard[u]);
  }

  // The step everything above is for: deleting an entry older than the safe epoch.
  lemma DeleteFenced(s: State, m: nat, e: Entry)
    requires MinOk(s.g, s.unlinkedAt, s.guard, m, {}) && Fenced(s.place, s.guard)
    requires e.ptr in s.unlinkedAt && s.unlinkedAt[e.ptr] <= e.epoch < m
    ensures Fenced(s.place[e.ptr := Deleted], s.guard)
  {
  }

  lemma DrainCore(s: State, t: nat)
    requires Core(s) && ReclaimEnabled(s, Drain(t)) && s.pc[t].i < |s.bag[t]| && s.bag[t][s.pc[t].i].epoch < s.pc[t].m
    ensures Core(ReclaimApply(s, Drain(t)))
  {
    hide Epochs, Guards, Scans, Fenced, Bags, Held, MinOk;
    var p := s.pc[t];
    var e := s.bag[t][p.i];
    var p' := Draining(p.m, p.i, p.freed + {e.ptr});
    var place' := s.place[e.ptr := Deleted];
    BagOf(s, t);
    MinOf(s, t);
    DeleteFenced(s, p.m, e);
    ListShrink(s.place, s.unlinkedAt, s.bag[t], Bagged(t), p.i);
    hide ListOk;
    BagsChange(s.place, place', s.unlinkedAt, s.bag, t, Without(s.bag[t], p.i));
    ListFrame(s.place, place', s.unlinkedAt, s.unlinkedAt, s.orphans, Orphaned);
    PcScans(s.g, s.unlinkedAt, s.guard, s.pc, t, p');
    PcHeld(s.place, place', s.unlinkedAt, s.unlinkedAt, s.pc, t, p');
  }

  lemma SweepCore(s: State, t: nat)
    requires Core(s) && ReclaimEnabled(s, Sweep(t)) && s.pc[t].i < |s.orphans| && s.orphans[s.pc[t].i].epoch < s.pc[t].m
    ensures Core(ReclaimApply(s, Sweep(t)))
  {
    hide Epochs, Guards, Scans, Fenced, Bags, Held, MinOk;
    var p := s.pc[t];
    var e := s.orphans[p.i];
    var p' := Sweeping(p.m, p.i, p.freed + {e.ptr});
    var place' := s.place[e.ptr := Deleted];
    MinOf(s, t);
    DeleteFenced(s, p.m, e);
    ListShrink(s.place, s.unlinkedAt, s.orphans, Orphaned, p.i);
    hide ListOk;
    BagsFrame(s.place, place', s.unlinkedAt, s.unlinkedAt, s.bag);
    PcScans(s.g, s.unlinkedAt, s.guard, s.pc, t, p');
    PcHeld(s.place, place', s.unlinkedAt, s.unlinkedAt, s.pc, t, p');
  }

  // The step deletes a node.
  predicate Deletes(s: State, st: Step)
    requires ReclaimEnabled(s, st)
  {
    || (st.Drain? && s.pc[st.t].i < |s.bag[st.t]| && s.bag[st.t][s.pc[st.t].i].epoch < s.pc[st.t].m)
    || (st.Sweep? && s.pc[st.t].i < |s.orphans| && s.orphans[s.pc[st.t].i].epoch < s.pc[st.t].m)
  }

  lemma ReclaimRest(s: State, st: Step)
    requires Core(s) && ReclaimEnabled(s, st) && !Deletes(s, st) && !st.TickCas?
    ensures Core(ReclaimApply(s, st))
  {
    hide Core;
    var s' := ReclaimApply(s, st);
    if HasMin(s.pc[st.t]) { MinOf(s, st.t); }
    if st.ScanSlot? {
      ScanSlotMin(s, st.t, st.u);
    }
    PcCore(s, st.t, s'.pc[st.t]);
    CoreRest(s.(pc := s'.pc), s'.dead, s'.orphanCount, s'.lock, s'.retiredCount, s'.added, s'.subtracted);
  }

  lemma ReclaimCore(s: State, st: Step)
    requires Core(s) && ReclaimEnabled(s, st)
    ensures Core(ReclaimApply(s, st))
  {
    hide Core, ReclaimApply;
    if st.TickCas? {
      TickCore(s, st.t);
    } else if !Deletes(s, st) {
      ReclaimRest(s, st);
    } else if st.Drain? {
      DrainCore(s, st.t);
    } else {
      SweepCore(s, st.t);
    }
  }

  lemma CoreStep(s: State, st: Step)
    requires Core(s) && Enabled(s, st)
    ensures Core(Apply(s, st))
  {
    hide Core, GuardApply, RetireApply, ReclaimApply, GuardEnabled, RetireEnabled, ReclaimEnabled;
    if GuardEnabled(s, st) {
      GuardCore(s, st);
    } else if RetireEnabled(s, st) {
      RetireCore(s, st);
    } else {
      ReclaimCore(s, st);
    }
  }
}
