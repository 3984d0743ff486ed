/**
 The task queue refines a FIFO ordered by the exchanges on `head_`, over every run with any number
 of producers stopped anywhere.
 */
module MpscQueueTheorems {
  import opened MpscQueue
  import opened MpscQueueSafety

  predicate Init(s: State) {
    && s.log == [s.stub] && s.lo == 0 && s.head == s.tail == s.stub && s.stub !in s.next && s.stub !in s.idle
    && s.committed == s.popped == [] && s.cons == Rest(NoneYet)
    && forall t :: t in s.prod ==> s.prod[t].Away?
  }

  ghost predicate Run(s: State, steps: seq<Step>, s': State)
    decreases |steps|
  {
    if steps == [] then s' == s
    else Enabled(s, steps[0]) && Run(Apply(s, steps[0]), steps[1..], s')
  }

  // ---- the history the log keeps -------------------------------------------------------------

  lemma {:induction false} TasksOfConcat(a: seq<nat>, b: seq<nat>, stub: nat)
    ensures Tasks(a + b, stub) == Tasks(a, stub) + Tasks(b, stub)
    decreases |b|
  {
    if b == [] {
      assert a + b == a;
    } else {
      assert (a + b)[..|a + b| - 1] == a + b[..|b| - 1];
      TasksOfConcat(a, b[..|b| - 1], stub);
    }
  }

  lemma {:induction false} TasksOfChain(c: seq<nat>, stub: nat)
    requires forall m :: 0 <= m < |c| ==> c[m] != stub
    ensures Tasks(c, stub) == c
  {
    if c != [] {
      TasksOfChain(c[..|c| - 1], stub);
    }
  }

  lemma TasksAdvance(log: seq<nat>, lo: nat, stub: nat)
    requires lo < |log|
    ensures Tasks(log[..lo + 1], stub) == Tasks(log[..lo], stub) + if log[lo] == stub then [] else [log[lo]]
  {
    assert log[..lo + 1][..lo] == log[..lo];
  }

  lemma CarriedTasks(s: State, t: nat)
    requires Apart(s.log, s.lo, s.idle, s.prod, s.stub) && t in s.prod && s.prod[t].Ended?
    ensures Tasks(s.prod[t].chain, s.stub) == s.prod[t].chain
  {
    assert Fresh(s.log, s.lo, s.idle, s.prod[t].chain, s.stub);
    TasksOfChain(s.prod[t].chain, s.stub);
  }

  lemma SwapHistory(s: State, t: nat)
    requires Inv(s) && Enabled(s, Swap(t))
    ensures History(Apply(s, Swap(t)))
  {
    hide Shape, Links, ProducersDue, ConsumerDue, Covered, Chains, Apart, ConsumerOk, Tasks;
    CarriedTasks(s, t);
    TasksOfConcat(s.log, s.prod[t].chain, s.stub);
    assert (s.log + s.prod[t].chain)[..s.lo] == s.log[..s.lo];
  }

  lemma StubHistory(s: State)
    requires History(s) && Enabled(s, PopStubSwap)
    ensures History(Apply(s, PopStubSwap))
  {
    assert (s.log + [s.stub])[..|s.log|] == s.log;
    assert (s.log + [s.stub])[..s.lo] == s.log[..s.lo];
  }

  // What a step of pop does to tail_: nothing, or one node forward, counted if it is a task.
  lemma PopHistory(s: State, st: Step)
    requires Inv(s) && Enabled(s, st) && (st.PopStart? || st.PopNext? || st.PopRecheck?)
    ensures History(Apply(s, st))
  {
    hide Links, ProducersDue, ConsumerDue, Covered, Chains, Apart, Tasks, Core;
    ConsumerFacts(s);
    TasksAdvance(s.log, s.lo, s.stub);
    if s.tail in s.next {
      LinkedInside(s);
    }
  }

  lemma LinkedInside(s: State)
    requires Core(s) && s.tail in s.next
    ensures s.lo + 1 < |s.log|
  {
    hide ProducersDue, ConsumerDue, Covered, Chains, Apart, ConsumerOk;
  }

  lemma InvStep(s: State, st: Step)
    requires Inv(s) && Enabled(s, st)
    ensures Inv(Apply(s, st))
  {
    hide Core;
    CoreStep(s, st);
    if st.Swap? {
      SwapHistory(s, st.t);
    } else if st.PopStubSwap? {
      StubHistory(s);
    } else if st.PopStart? || st.PopNext? || st.PopRecheck? {
      PopHistory(s, st);
    }
  }

  lemma {:induction false} InvRun(s: State, steps: seq<Step>, s': State)
    requires Inv(s) && Run(s, steps, s')
    ensures Inv(s')
    decreases |steps|
  {
    hide Inv, Apply, Enabled;
    if steps != [] {
      InvStep(s, steps[0]);
      InvRun(Apply(s, steps[0]), steps[1..], s');
    }
  }

  lemma Reachable(s0: State, steps: seq<Step>, s: State)
    requires Init(s0) && Run(s0, steps, s)
    ensures Inv(s)
  {
    assert Inv(s0);
    InvRun(s0, steps, s);
  }

  // ---- the abstract queue --------------------------------------------------------------------

  // The tasks committed and not yet returned, oldest first.
  function Pending(s: State): (q: seq<nat>)
    requires s.lo < |s.log|
  {
    Tasks(s.log[s.lo..], s.stub)
  }

  lemma Balance(s: State)
    requires History(s)
    ensures s.committed == s.popped + Pending(s)
  {
    TasksOfConcat(s.log[..s.lo], s.log[s.lo..], s.stub);
    assert s.log[..s.lo] + s.log[s.lo..] == s.log;
  }

  datatype Op = Internal | Enqueue(tasks: seq<nat>) | Dequeue(task: nat)

  // The queue as its users see it: whole batches in at the back, one task out at the front.
  predicate Fifo(q: seq<nat>, op: Op, q': seq<nat>) {
    match op
    case Internal => q' == q
    case Enqueue(tasks) => q' == q + tasks
    case Dequeue(x) => q == [x] + q'
  }

  // What a step amounts to: the exchange enters the batch, a successful pop takes its task out.
  function Label(s: State, st: Step): (op: Op)
    requires Enabled(s, st)
  {
    if st.Swap? then Enqueue(s.prod[st.t].chain)
    else if (st.PopStart? || st.PopNext? || st.PopRecheck?) && Apply(s, st).cons.Rest? && Apply(s, st).cons.last.Got?
    then Dequeue(Apply(s, st).cons.last.task)
    else Internal
  }

  lemma RefinesFifo(s0: State, steps: seq<Step>, s: State, st: Step)
    requires Init(s0) && Run(s0, steps, s) && Enabled(s, st)
    ensures s.lo < |s.log| && Apply(s, st).lo < |Apply(s, st).log|
    ensures Fifo(Pending(s), Label(s, st), Pending(Apply(s, st)))
    ensures s.committed == s.popped + Pending(s)
  {
    hide Core, Run, Tasks;
    Reachable(s0, steps, s);
    InvStep(s, st);
    Balance(s);
    Balance(Apply(s, st));
    hide Pending;
    Labelled(s, st);
    var op, q, q' := Label(s, st), Pending(s), Pending(Apply(s, st));
    if op.Enqueue? {
      SamePrefix(s.popped, q', q + op.tasks);
    } else if op.Dequeue? {
      SamePrefix(s.popped, [op.task] + q', q);
    } else {
      SamePrefix(s.popped, q', q);
    }
  }

  lemma SamePrefix(a: seq<nat>, b: seq<nat>, c: seq<nat>)
    requires a + b == a + c
    ensures b == c
  {
    assert b == (a + b)[|a|..] && c == (a + c)[|a|..];
  }

  // Only exchanges by producers commit and only returning pops consume.
  lemma Labelled(s: State, st: Step)
    requires Enabled(s, st)
    ensures var op, s' := Label(s, st), Apply(s, st);
            && s'.committed == (if op.Enqueue? then s.committed + op.tasks else s.committed)
            && s'.popped == (if op.Dequeue? then s.popped + [op.task] else s.popped)
  {
    if st.PopStart? {} else if st.PopNext? {} else if st.PopRecheck? {} else if st.PopHead? {} else if st.AskStart? {}
  }

  lemma {:induction false} HistoryGrows(s: State, steps: seq<Step>, s': State)
    requires Run(s, steps, s')
    ensures s.committed <= s'.committed && s.popped <= s'.popped
    decreases |steps|
  {
    hide Enabled, Apply;
    if steps != [] {
      Labelled(s, steps[0]);
      HistoryGrows(Apply(s, steps[0]), steps[1..], s');
    }
  }

  // Over whole runs: what pop has returned is an initial part of what was committed, so every task
  // comes out at most once per push and in order, and a batch comes out whole and in its own order.
  lemma BatchesStayWhole(s0: State, before: seq<Step>, s: State, t: nat, after: seq<Step>, s': State)
    requires Init(s0) && Run(s0, before, s) && Enabled(s, Swap(t)) && Run(Apply(s, Swap(t)), after, s')
    ensures s'.popped <= s'.committed
    ensures var k, n := |s.committed|, |s.prod[t].chain|;
            && k + n <= |s'.committed| && s'.committed[k..k + n] == s.prod[t].chain
            && (k + n <= |s'.popped| ==> s'.popped[k..k + n] == s.prod[t].chain)
  {
    hide Core, Run, Tasks;
    Reachable(s0, before, s);
    InvStep(s, Swap(t));
    Labelled(s, Swap(t));
    var s1 := Apply(s, Swap(t));
    InvRun(s1, after, s');
    HistoryGrows(s1, after, s');
    Balance(s');
    var k, n := |s.committed|, |s.prod[t].chain|;
    assert s'.committed[k..k + n] == s1.committed[k..k + n] == s.prod[t].chain;
    if k + n <= |s'.popped| {
      assert s'.popped[k..k + n] == s'.committed[k..k + n];
    }
  }

  // ---- nodes outside the chain ---------------------------------------------------------------

  // Nobody owes a store to the node, and neither end of the queue points at it.
  ghost predicate Untouched(s: State, n: nat) {
    && s.head != n && s.tail != n
    && (forall t :: t in s.prod && s.prod[t].Owing? ==> s.prod[t].prev != n && s.prod[t].first != n)
    && (s.cons.StubLink? ==> s.cons.prev != n)
  }

  lemma OutsideUntouched(s: State, n: nat)
    requires Core(s) && !InLog(s.log, s.lo, n)
    ensures Untouched(s, n)
  {
    hide ConsumerOk, Covered, Chains, Apart, Links;
  }

  lemma IdleOutside(s: State, n: nat)
    requires Core(s) && n in s.idle
    ensures !InLog(s.log, s.lo, n)
  {
    hide ProducersDue, ConsumerDue, Covered, Chains, ConsumerOk;
  }

  lemma PoppedIsFree(s0: State, steps: seq<Step>, s: State, st: Step)
    requires Init(s0) && Run(s0, steps, s) && Enabled(s, st) && Label(s, st).Dequeue?
    ensures var x, s' := Label(s, st).task, Apply(s, st);
            && x != s.stub && x in s'.idle && x !in s.idle && Untouched(s', x)
  {
    hide Core, Run, Tasks, Untouched;
    Reachable(s0, steps, s);
    InvStep(s, st);
    ConsumerFacts(s);
    var x := Label(s, st).task;
    assert x == s.tail && x != s.stub && x in Apply(s, st).idle;
    IdleOutside(Apply(s, st), x);
    OutsideUntouched(Apply(s, st), x);
    assert InLog(s.log, s.lo, x);
    if x in s.idle {
      IdleOutside(s, x);
    }
  }

  // From the moment the stub is re-inserted until tail_ moves past it, it is in the chain once;
  // so is every other node.
  lemma NoNodeTwice(s0: State, steps: seq<Step>, s: State, i: nat, j: nat)
    requires Init(s0) && Run(s0, steps, s) && s.lo <= i < |s.log| && s.lo <= j < |s.log| && s.log[i] == s.log[j]
    ensures i == j
  {
    hide Core, Run;
    Reachable(s0, steps, s);
    ConsumerFacts(s);
  }

  // ---- the two emptiness queries ---------------------------------------------------------------

  lemma {:induction false} HasTask(c: seq<nat>, stub: nat, m: nat)
    requires m < |c| && c[m] != stub
    ensures Tasks(c, stub) != []
  {
    if m < |c| - 1 {
      HasTask(c[..|c| - 1], stub, m);
    }
  }

  // With tail_ on the stub, nothing is pending exactly when head_ is there too.
  lemma DrainedAtStub(s: State)
    requires Inv(s) && s.tail == s.stub
    ensures s.committed == s.popped <==> s.head == s.tail
    ensures s.committed == s.popped <==> s.lo == |s.log| - 1
  {
    hide Core;
    ConsumerFacts(s);
    Balance(s);
    if s.lo == |s.log| - 1 {
      assert s.log[s.lo..] == [s.stub];
      assert Tasks([s.stub], s.stub) == [];
    } else {
      HasTask(s.log[s.lo..], s.stub, 1);
    }
  }

  // The answer of quiescent, at the moment it reads head_, with producers anywhere.
  lemma QuiescentExact(s0: State, steps: seq<Step>, s: State)
    requires Init(s0) && Run(s0, steps, s) && s.cons.AskHead?
    ensures Apply(s, AskEnd).cons == Rest(Answer(s.committed == s.popped))
  {
    hide Core, Run;
    Reachable(s0, steps, s);
    ConsumerFacts(s);
    DrainedAtStub(s);
  }

  // When empty answers true, tasks are pending exactly when a producer has exchanged and still owes
  // the stub its link.
  lemma EmptyExact(s0: State, steps: seq<Step>, s: State)
    requires Init(s0) && Run(s0, steps, s) && Empty(s) && s.cons.Rest?
    ensures s.committed != s.popped <==> exists t :: t in s.prod && s.prod[t].Owing? && s.prod[t].prev == s.stub
  {
    hide Core, Run;
    Reachable(s0, steps, s);
    DrainedAtStub(s);
    ConsumerFacts(s);
    OwedIsInside(s);
    if s.lo < |s.log| - 1 {
      MissingIsOwed(s);
    }
  }

  lemma MissingIsOwed(s: State)
    requires Core(s) && !s.cons.StubLink? && s.tail !in s.next && s.lo < |s.log| - 1
    ensures exists t :: t in s.prod && s.prod[t].Owing? && s.prod[t].prev == s.tail
  {
    hide ConsumerDue, Chains, ConsumerOk, Links, Apart;
    assert Owed(s.prod, s.cons, s.lo);
  }

  lemma OwedIsInside(s: State)
    requires Core(s)
    ensures forall t :: t in s.prod && s.prod[t].Owing? ==> s.lo < |s.log| - 1
  {
    hide ConsumerDue, Chains, ConsumerOk, Links, Apart, Covered;
  }

  // empty() can answer true with a task committed: one producer, stopped between its two accesses.
  lemma EmptyCanBeWrong(task: nat, stub: nat)
    returns (s0: State, steps: seq<Step>, s: State)
    requires task != stub
    ensures Init(s0) && Run(s0, steps, s)
    ensures Empty(s) && s.cons.Rest? && s.committed == [task] && s.popped == []
  {
    s0 := State(stub, stub, stub, map[], {task}, map[0 := Away], Rest(NoneYet), [stub], 0, [], []);
    steps := [Prepare(0, [task]), Terminate(0), Swap(0)];
    var s1 := Apply(s0, steps[0]);
    var s2 := Apply(s1, steps[1]);
    s := Apply(s2, steps[2]);
    assert s1.prod[0] == Linked([task]) && s1.next == map[];
    assert s2.prod[0] == Ended([task]) && s2.next == map[];
    assert Run(s, [], s);
    assert Run(s2, [Swap(0)], s) by { assert [Swap(0)][1..] == []; }
    assert Run(s1, [Terminate(0), Swap(0)], s) by { assert [Terminate(0), Swap(0)][1..] == [Swap(0)]; }
    assert steps[1..] == [Terminate(0), Swap(0)];
  }

  lemma BalanceOf(s: State)
    requires Inv(s)
    ensures s.lo < |s.log| && s.committed == s.popped + Pending(s)
  {
    hide Core;
    Balance(s);
  }
}
