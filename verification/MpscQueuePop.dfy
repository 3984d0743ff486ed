/**
 When pop fails, with producers anywhere: exactly when nothing is pending or a producer that has
 exchanged still owes the link pop met; and what clear leaves.
 */
module MpscQueuePop {
  import opened MpscQueue
  import opened MpscQueueSafety
  import opened MpscQueueTheorems

  // A producer has exchanged behind node n and not yet stored n's link.
  ghost predicate OwedBy(s: State, n: nat) { exists t :: t in s.prod && s.prod[t].Owing? && s.prod[t].prev == n }

  lemma TailOwed(s: State)
    requires Core(s) && !s.cons.StubLink?
    ensures OwedBy(s, s.tail) <==> s.tail !in s.next && s.lo < |s.log| - 1
  {
    hide Core;
    ConsumerFacts(s);
    if s.tail !in s.next && s.lo < |s.log| - 1 {
      MissingIsOwed(s);
    }
    forall t | t in s.prod && s.prod[t].Owing? && s.prod[t].prev == s.tail
      ensures s.tail !in s.next && s.lo < |s.log| - 1
    {
      DueOf(s, t);
    }
  }

  lemma DueOf(s: State, t: nat)
    requires Core(s) && t in s.prod && s.prod[t].Owing?
    ensures Due(s.log, s.lo, s.next, s.prod[t].prev, s.prod[t].first, s.prod[t].j)
  {
    hide Shape, Links, ConsumerDue, Covered, Chains, Apart, ConsumerOk, Due;
  }

  // ---- each way to fail, at the moment it happens -------------------------------------------------------

  // Finding the stub without a successor: nothing is pending, or a producer owes the stub its link.
  lemma StubFails(s0: State, steps: seq<Step>, s: State)
    requires Init(s0) && Run(s0, steps, s) && s.cons.Rest? && s.tail == s.stub
    ensures s.lo < |s.log|
    ensures Apply(s, PopStart).cons == Rest(Failed) <==> Pending(s) == [] || OwedBy(s, s.tail)
    ensures Pending(s) != [] || !OwedBy(s, s.tail)
  {
    hide Core, Run, Init;
    Reachable(s0, steps, s);
    ConsumerFacts(s);
    TailOwed(s);
    BalanceOf(s);
    DrainedAtStub(s);
    SamePending(s);
    LastUnlinked(s);
  }

  lemma SamePending(s: State)
    requires s.lo < |s.log| && s.committed == s.popped + Pending(s)
    ensures s.committed == s.popped <==> Pending(s) == []
  {
  }

  lemma LastUnlinked(s: State)
    requires Core(s)
    ensures s.lo < |s.log| && (s.lo == |s.log| - 1 ==> s.tail !in s.next)
  {
    hide ProducersDue, ConsumerDue, Covered, Chains, Apart, ConsumerOk;
  }

  // Finding no successor after the stub has gone in: a producer owes the task its link.
  lemma RecheckFails(s0: State, steps: seq<Step>, s: State)
    requires Init(s0) && Run(s0, steps, s) && s.cons.Recheck?
    ensures Apply(s, PopRecheck).cons == Rest(Failed) <==> OwedBy(s, s.tail)
  {
    hide Core, Run, Init;
    Reachable(s0, steps, s);
    ConsumerFacts(s);
    TailOwed(s);
    StubBehind(s, steps, s0);
  }

  // Behind the task the consumer holds at this point the stub, at least, has been exchanged in.
  lemma StubBehind(s: State, steps: seq<Step>, s0: State)
    requires Init(s0) && Run(s0, steps, s) && s.cons.Recheck?
    ensures s.lo < |s.log| - 1
  {
    hide Run, Enabled, Apply, Init;
    InitBehind(s0);
    InitInv(s0);
    BehindRun(s0, steps, s);
  }

  ghost predicate Behind(s: State) { s.cons.StubLink? || s.cons.Recheck? ==> s.lo < |s.log| - 1 }

  lemma InitBehind(s: State)
    requires Init(s)
    ensures Behind(s)
  {
  }

  lemma BehindStep(s: State, st: Step)
    requires Behind(s) && Core(s) && Enabled(s, st)
    ensures Behind(Apply(s, st))
  {
    hide Core;
    LastUnlinked(s);
    if st.Swap? {} else if st.PopStart? {} else if st.PopNext? {} else if st.PopStubSwap? {} else if st.PopRecheck? {} else {}
  }

  lemma {:induction false} BehindRun(s: State, steps: seq<Step>, s': State)
    requires Behind(s) && Inv(s) && Run(s, steps, s')
    ensures Behind(s')
    decreases |steps|
  {
    hide Core, Apply, Enabled, Behind;
    if steps != [] {
      BehindStep(s, steps[0]);
      InvStep(s, steps[0]);
      BehindRun(Apply(s, steps[0]), steps[1..], s');
    }
  }

  // Between its load of a null successor and its load of head_ only producers move.
  ghost predicate OthersOnly(steps: seq<Step>) {
    forall i :: 0 <= i < |steps| ==> steps[i].Prepare? || steps[i].Terminate? || steps[i].Swap? || steps[i].Link?
  }

  // At some moment of the run a producer owes n its link.
  ghost predicate OwedDuring(s: State, steps: seq<Step>, n: nat)
    decreases |steps|
  {
    OwedBy(s, n) || (steps != [] && Enabled(s, steps[0]) && OwedDuring(Apply(s, steps[0]), steps[1..], n))
  }

  lemma ProducerStep(s: State, st: Step)
    requires Core(s) && Enabled(s, st) && (st.Prepare? || st.Terminate? || st.Swap? || st.Link?)
    ensures var s' := Apply(s, st);
            && s'.cons == s.cons && s'.tail == s.tail && s'.lo == s.lo && |s.log| <= |s'.log|
            && (s.tail !in s.next && !OwedBy(s, s.tail) ==> s'.tail !in s'.next)
  {
    hide Core;
    ConsumerFacts(s);
    if st.Link? {
      assert s.prod[st.t].prev == s.tail ==> OwedBy(s, s.tail);
    } else if st.Prepare? {
      TailNotIn(s, st.chain);
    }
  }

  lemma TailNotIn(s: State, chain: seq<nat>)
    requires Core(s) && forall m :: 0 <= m < |chain| ==> chain[m] in s.idle
    ensures s.tail !in chain
  {
    hide Core;
    ConsumerFacts(s);
    assert InLog(s.log, s.lo, s.tail);
    if s.tail in s.idle {
      IdleOutside(s, s.tail);
    }
  }

  lemma {:induction false} HeadMoves(s: State, mid: seq<Step>, s': State)
    requires Inv(s) && Run(s, mid, s') && OthersOnly(mid) && s.cons.LoadHead? && s.tail !in s.next
    ensures Inv(s') && s'.cons == s.cons && s'.tail == s.tail
    ensures s'.lo < |s'.log| - 1 <==> OwedDuring(s, mid, s.tail)
    decreases |mid|
  {
    hide Core, Apply, Enabled, OwedBy;
    TailOwed(s);
    if s.lo < |s.log| - 1 {
      StaysBehind(s, mid, s');
    } else if mid == [] {
    } else {
      ProducerStep(s, mid[0]);
      InvStep(s, mid[0]);
      HeadMoves(Apply(s, mid[0]), mid[1..], s');
    }
  }

  lemma {:induction false} StaysBehind(s: State, mid: seq<Step>, s': State)
    requires Inv(s) && Run(s, mid, s') && OthersOnly(mid)
    ensures Inv(s') && s'.cons == s.cons && s'.tail == s.tail && s'.lo == s.lo && |s.log| <= |s'.log|
    decreases |mid|
  {
    hide Core, Apply, Enabled, OwedBy;
    if mid != [] {
      ProducerStep(s, mid[0]);
      InvStep(s, mid[0]);
      StaysBehind(Apply(s, mid[0]), mid[1..], s');
    }
  }

  // Finding head_ elsewhere: at some moment since its load of the null successor a producer owed it.
  lemma HeadFails(s0: State, before: seq<Step>, s: State, mid: seq<Step>, s': State)
    requires Init(s0) && Run(s0, before, s) && s.cons.LoadHead? && s.tail !in s.next && Run(s, mid, s') && OthersOnly(mid)
    ensures s'.cons.LoadHead? && (Apply(s', PopHead).cons == Rest(Failed) <==> OwedDuring(s, mid, s.tail))
  {
    hide Core, Run, Init, OwedDuring, OthersOnly;
    Reachable(s0, before, s);
    HeadMoves(s, mid, s');
    ConsumerFacts(s');
  }

  // ---- a whole pop, with every producer stopped where it is --------------------------------------------------

  function ConsumerStep(c: Consumer): (st: Step)
  {
    match c
    case Rest(_) => PopStart
    case LoadNext(_) => PopNext
    case LoadHead(_) => PopHead
    case StubNull(_) => PopStubNull
    case StubSwap(_) => PopStubSwap
    case StubLink(_, _, _) => PopStubLink
    case Recheck(_) => PopRecheck
    case AskHead => AskEnd
  }

  function Rank(c: Consumer): (k: nat)
  {
    match c
    case Rest(_) => 0
    case LoadNext(_) => 6
    case LoadHead(_) => 5
    case StubNull(_) => 4
    case StubSwap(_) => 3
    case StubLink(_, _, _) => 2
    case Recheck(_) => 1
    case AskHead => 1
  }

  // The rest of the consumer's call, run without interruption.
  function Finish(s: State): (s': State)
    ensures s'.cons.Rest?
    decreases Rank(s.cons)
  {
    if s.cons.Rest? then s else Finish(Apply(s, ConsumerStep(s.cons)))
  }

  function Pop(s: State): (s': State)
    requires s.cons.Rest?
  {
    Finish(Apply(s, PopStart))
  }

  lemma {:induction false} FinishInv(s: State)
    requires Inv(s)
    ensures Inv(Finish(s)) && Finish(s).prod == s.prod && Finish(s).committed == s.committed && Finish(s).stub == s.stub
    decreases Rank(s.cons)
  {
    hide Inv;
    if !s.cons.Rest? {
      InvStep(s, ConsumerStep(s.cons));
      FinishInv(Apply(s, ConsumerStep(s.cons)));
    }
  }

  // From the head check on, alone: append the stub, find it linked, return the task.
  lemma StubRun(s: State)
    requires s.cons == LoadHead(s.head) && s.head != s.stub
    ensures Finish(s).cons == Rest(Got(s.head)) && Finish(s).popped == s.popped + [s.head]
  {
    var s1 := Apply(s, PopHead);
    var s2 := Apply(s1, PopStubNull);
    var s3 := Apply(s2, PopStubSwap);
    var s4 := Apply(s3, PopStubLink);
    assert s4.cons == Recheck(s.head) && s4.next[s.head] == s.stub;
    assert Finish(s) == Finish(s1) == Finish(s2);
    assert Finish(s2) == Finish(s3) == Finish(s4) == Apply(s4, PopRecheck);
  }

  lemma FinishAtRest(s: State)
    requires s.cons.Rest?
    ensures Finish(s) == s
  {
  }

  // From the load of a task's successor on.
  lemma FinishFrom(s: State)
    requires Core(s) && (s.cons.LoadNext? || (s.cons.LoadHead? && s.tail !in s.next))
    ensures OwedBy(s, s.tail) ==> Finish(s).cons == Rest(Failed) && Finish(s).popped == s.popped
    ensures !OwedBy(s, s.tail) ==> Finish(s).cons == Rest(Got(s.tail)) && Finish(s).popped == s.popped + [s.tail]
  {
    hide Core, OwedBy;
    ConsumerFacts(s);
    TailOwed(s);
    if s.tail in s.next {
      assert Apply(s, PopNext).cons.Rest?;
    } else {
      var s1 := if s.cons.LoadNext? then Apply(s, PopNext) else s;
      assert Finish(s) == Finish(s1);
      if OwedBy(s, s.tail) {
        assert Finish(s1) == Finish(Apply(s1, PopHead)) == Apply(s1, PopHead);
      } else {
        StubRun(s1);
      }
    }
  }

  // A producer owes a link that pop would follow: that of the stub it starts at, or of the oldest task.
  ghost predicate Blocked(s: State) {
    OwedBy(s, s.tail) || (s.tail == s.stub && s.stub in s.next && OwedBy(s, s.next[s.stub]))
  }

  lemma TaskPending(s: State)
    requires s.lo < |s.log| && (s.log[s.lo] != s.stub || (s.lo + 1 < |s.log| && s.log[s.lo + 1] != s.stub))
    ensures Pending(s) != []
  {
    HasTask(s.log[s.lo..], s.stub, if s.log[s.lo] != s.stub then 0 else 1);
  }

  /** With producers stopped anywhere, a pop fails exactly if nothing is pending or a producer owes a
      link it met; otherwise it returns the oldest task. */
  lemma PopAlone(s: State)
    requires Inv(s) && s.cons.Rest?
    ensures Inv(Pop(s)) && Pop(s).prod == s.prod && Pop(s).committed == s.committed && Pop(s).stub == s.stub
    ensures Pop(s).cons == Rest(Failed) <==> Pending(s) == [] || Blocked(s)
    ensures Pop(s).cons == Rest(Failed) ==> Pop(s).popped == s.popped
    ensures Pop(s).cons != Rest(Failed) ==>
              Pending(s) != [] && Pop(s).cons == Rest(Got(Pending(s)[0])) && Pop(s).popped == s.popped + [Pending(s)[0]]
  {
    hide Core, Tasks, Finish, OwedBy;
    var s1 := Apply(s, PopStart);
    InvStep(s, PopStart);
    FinishInv(s1);
    ConsumerFacts(s);
    TailOwed(s);
    LastUnlinked(s);
    if s.tail == s.stub && s.stub !in s.next {
      BalanceOf(s);
      DrainedAtStub(s);
      SamePending(s);
      FinishAtRest(s1);
    } else {
      PopTask(s, s1);
    }
  }

  lemma PopTask(s: State, s1: State)
    requires Inv(s) && s.cons.Rest? && s1 == Apply(s, PopStart) && Inv(s1) && Inv(Finish(s1)) && Finish(s1).committed == s.committed
    requires s.tail != s.stub || s.stub in s.next
    ensures Pending(s) != []
    ensures Finish(s1).cons == Rest(Failed) <==> Blocked(s)
    ensures Finish(s1).cons == Rest(Failed) ==> Finish(s1).popped == s.popped
    ensures Finish(s1).cons != Rest(Failed) ==>
              Finish(s1).cons == Rest(Got(Pending(s)[0])) && Finish(s1).popped == s.popped + [Pending(s)[0]]
  {
    hide Core, Tasks, Finish, OwedBy;
    ConsumerFacts(s);
    ConsumerFacts(s1);
    TailOwed(s);
    LastUnlinked(s);
    SameOwed(s, s1);
    TaskPending(s);
    BalanceOf(s);
    BalanceOf(Finish(s1));
    if s1.cons.Rest? {
      FinishAtRest(s1);
      SamePrefix(s.popped, [s.tail] + Pending(s1), Pending(s));
    } else {
      FinishFrom(s1);
      if !OwedBy(s1, s1.tail) {
        SamePrefix(s.popped, [s1.tail] + Pending(Finish(s1)), Pending(s));
      }
    }
  }

  lemma SameOwed(s: State, s1: State)
    requires s1.prod == s.prod
    ensures forall n :: OwedBy(s1, n) <==> OwedBy(s, n)
  {
  }

  function Clear(s: State): (s': State)
    requires Inv(s) && s.cons.Rest?
    ensures s'.committed == s.committed
    decreases |Pending(s)|
  {
    PopAlone(s); BalanceOf(s); BalanceOf(Pop(s));
    if Pop(s).cons == Rest(Failed) then Pop(s) else Clear(Pop(s))
  }

  ghost predicate NoneOwing(s: State) { forall t :: t in s.prod ==> !s.prod[t].Owing? }

  // What a producer links in begins with a task.
  ghost predicate FirstIsTask(s: State) { forall t :: t in s.prod && s.prod[t].Owing? ==> s.prod[t].first != s.stub }

  lemma {:induction false} ClearStops(s: State)
    requires Inv(s) && s.cons.Rest?
    ensures Inv(Clear(s)) && Clear(s).prod == s.prod && Clear(s).stub == s.stub && Clear(s).popped <= s.committed
    ensures NoneOwing(s) ==> Clear(s).popped == s.committed
    decreases |Pending(s)|
  {
    hide Inv, Pop, OwedBy, Pending;
    PopAlone(s);
    BalanceOf(s);
    BalanceOf(Pop(s));
    if Pop(s).cons == Rest(Failed) {
      if NoneOwing(s) { NotBlocked(s); }
    } else {
      ClearStops(Pop(s));
    }
  }

  lemma NotBlocked(s: State)
    requires NoneOwing(s)
    ensures !Blocked(s)
  {
  }

  /** With producers stopped anywhere, clear pops every committed task exactly if none of them is between
      its exchange and its link. */
  lemma ClearDrains(s0: State, steps: seq<Step>, s: State)
    requires Init(s0) && Run(s0, steps, s) && s.cons.Rest?
    ensures Inv(s)
    ensures Clear(s).popped <= s.committed && (Clear(s).popped == s.committed <==> NoneOwing(s))
  {
    assert FirstIsTask(s0);
    hide Init, Run, Core, FirstIsTask;
    Reachable(s0, steps, s);
    assert Inv(s0) by { InitInv(s0); }
    FirstRun(s0, steps, s);
    ClearStops(s);
    if !NoneOwing(s) {
      var t :| t in s.prod && s.prod[t].Owing?;
      OwedIsPending(Clear(s), t);
    }
  }

  lemma InitInv(s: State)
    requires Init(s)
    ensures Inv(s)
  {
    Reachable(s, [], s);
  }

  lemma OwedIsPending(s: State, t: nat)
    requires Inv(s) && t in s.prod && s.prod[t].Owing? && s.prod[t].first != s.stub
    ensures s.popped != s.committed
  {
    hide Core;
    DueOf(s, t);
    BalanceOf(s);
    ConsumerFacts(s);
    HasTask(s.log[s.lo..], s.stub, s.prod[t].j + 1 - s.lo);
  }

  lemma FirstStep(s: State, st: Step)
    requires FirstIsTask(s) && Core(s) && Enabled(s, st)
    ensures FirstIsTask(Apply(s, st))
  {
    hide Shape, Links, ProducersDue, ConsumerDue, Covered, ConsumerOk, Chained;
    if st.Swap? {
      assert Fresh(s.log, s.lo, s.idle, s.prod[st.t].chain, s.stub);
    } else if st.Link? {} else {}
  }

  lemma {:induction false} FirstRun(s: State, steps: seq<Step>, s': State)
    requires FirstIsTask(s) && Inv(s) && Run(s, steps, s')
    ensures FirstIsTask(s')
    decreases |steps|
  {
    hide Core, Apply, Enabled, FirstIsTask;
    if steps != [] {
      FirstStep(s, steps[0]);
      InvStep(s, steps[0]);
      FirstRun(Apply(s, steps[0]), steps[1..], s');
    }
  }
}
