/**
 What every reachable state of the task queue keeps: the nodes from `tail_` to `head_` are one chain
 without repetition, every missing link in it is owed by exactly one thread stopped between its
 exchange and its store, and nobody owes a store to a node outside it.
 */
module MpscQueueSafety {
  import opened MpscQueue

  predicate Shape(log: seq<nat>, lo: nat, head: nat, tail: nat) {
    && lo < |log| && tail == log[lo] && head == Last(log)
    && forall i, j :: lo <= i < j < |log| ==> log[i] != log[j]
  }

  predicate Links(log: seq<nat>, lo: nat, next: map<nat, nat>) {
    && lo < |log| && Last(log) !in next
    && forall j :: lo <= j < |log| - 1 && log[j] in next ==> next[log[j]] == log[j + 1]
  }

  // The store `prev->next = first` is owed for position j.
  predicate Due(log: seq<nat>, lo: nat, next: map<nat, nat>, prev: nat, first: nat, j: nat) {
    lo <= j < |log| - 1 && prev == log[j] && first == log[j + 1] && prev !in next
  }

  predicate ProducersDue(log: seq<nat>, lo: nat, next: map<nat, nat>, prod: map<nat, Producer>) {
    && (forall t :: t in prod && prod[t].Owing? ==> Due(log, lo, next, prod[t].prev, prod[t].first, prod[t].j))
    && (forall t, u :: t in prod && u in prod && t != u && prod[t].Owing? && prod[u].Owing? ==> prod[t].j != prod[u].j)
  }

  predicate ConsumerDue(log: seq<nat>, lo: nat, next: map<nat, nat>, prod: map<nat, Producer>, cons: Consumer, stub: nat) {
    cons.StubLink? ==>
      && Due(log, lo, next, cons.prev, stub, cons.j)
      && forall t :: t in prod && prod[t].Owing? ==> prod[t].j != cons.j
  }

  predicate Owed(prod: map<nat, Producer>, cons: Consumer, j: nat) {
    || (cons.StubLink? && cons.j == j)
    || exists t :: t in prod && prod[t].Owing? && prod[t].j == j
  }

  predicate Covered(log: seq<nat>, lo: nat, next: map<nat, nat>, prod: map<nat, Producer>, cons: Consumer) {
    forall j: nat :: lo <= j < |log| - 1 && log[j] !in next ==> Owed(prod, cons, j)
  }

  predicate InLog(log: seq<nat>, lo: nat, n: nat) { exists j :: lo <= j < |log| && log[j] == n }

  predicate Carrying(p: Producer) { p.Linked? || p.Ended? }

  predicate ChainOk(next: map<nat, nat>, p: Producer)
    requires Carrying(p)
  {
    && p.chain != [] && Distinct(p.chain)
    && (forall m :: 0 <= m < |p.chain| - 1 ==> p.chain[m] in next && next[p.chain[m]] == p.chain[m + 1])
    && (p.Ended? ==> Last(p.chain) !in next)
  }

  predicate Chains(next: map<nat, nat>, prod: map<nat, Producer>) {
    forall t :: t in prod && Carrying(prod[t]) ==> ChainOk(next, prod[t])
  }

  // Every node is in one place: idle, in one producer's hands, or in the chain.
  predicate Apart(log: seq<nat>, lo: nat, idle: set<nat>, prod: map<nat, Producer>, stub: nat) {
    && stub !in idle
    && (forall j :: lo <= j < |log| ==> log[j] !in idle)
    && (forall t :: t in prod && Carrying(prod[t]) ==> Fresh(log, lo, idle, prod[t].chain, stub))
    && (forall t, u :: t in prod && u in prod && t != u && Carrying(prod[t]) && Carrying(prod[u]) ==>
                         Disjoint(prod[t].chain, prod[u].chain))
  }

  predicate Fresh(log: seq<nat>, lo: nat, idle: set<nat>, c: seq<nat>, stub: nat) {
    && (forall m :: 0 <= m < |c| ==> c[m] != stub && c[m] !in idle)
    && (forall m, j :: 0 <= m < |c| && lo <= j < |log| ==> c[m] != log[j])
  }

  predicate Disjoint(c: seq<nat>, d: seq<nat>) { forall i, j :: 0 <= i < |c| && 0 <= j < |d| ==> c[i] != d[j] }

  predicate ConsumerOk(log: seq<nat>, lo: nat, cons: Consumer, tail: nat, next: map<nat, nat>, stub: nat) {
    && (cons.LoadNext? || cons.LoadHead? || cons.StubNull? || cons.StubSwap? || cons.StubLink? || cons.Recheck? ==>
          cons.t == tail && tail != stub)
    && (cons.StubNull? || cons.StubSwap? ==> !InLog(log, lo, stub))
    && (cons.StubSwap? ==> stub !in next)
    && (cons.AskHead? ==> tail == stub)
  }

  // The tasks among the nodes of the log.
  function Tasks(log: seq<nat>, stub: nat): (r: seq<nat>)
    ensures stub !in r
  {
    if log == [] then []
    else Tasks(log[..|log| - 1], stub) + if Last(log) == stub then [] else [Last(log)]
  }

  predicate History(s: State) {
    s.lo < |s.log| && s.committed == Tasks(s.log, s.stub) && s.popped == Tasks(s.log[..s.lo], s.stub)
  }

  predicate Core(s: State) {
    && Shape(s.log, s.lo, s.head, s.tail)
    && Links(s.log, s.lo, s.next)
    && ProducersDue(s.log, s.lo, s.next, s.prod)
    && ConsumerDue(s.log, s.lo, s.next, s.prod, s.cons, s.stub)
    && Covered(s.log, s.lo, s.next, s.prod, s.cons)
    && Chains(s.next, s.prod)
    && Apart(s.log, s.lo, s.idle, s.prod, s.stub)
    && ConsumerOk(s.log, s.lo, s.cons, s.tail, s.next, s.stub)
  }

  predicate Inv(s: State) { Core(s) && History(s) }

  // ---- stores that touch no node of the chain ----------------------------------------------

  ghost predicate SameOn(log: seq<nat>, lo: nat, next: map<nat, nat>, next': map<nat, nat>) {
    forall j :: lo <= j < |log| ==> (log[j] in next <==> log[j] in next') && (log[j] in next ==> next[log[j]] == next'[log[j]])
  }

  lemma DueElsewhere(log: seq<nat>, lo: nat, next: map<nat, nat>, next': map<nat, nat>, prod: map<nat, Producer>, cons: Consumer, stub: nat)
    requires SameOn(log, lo, next, next')
    requires Links(log, lo, next) && ProducersDue(log, lo, next, prod) && ConsumerDue(log, lo, next, prod, cons, stub)
    requires Covered(log, lo, next, prod, cons)
    ensures Links(log, lo, next') && ProducersDue(log, lo, next', prod) && ConsumerDue(log, lo, next', prod, cons, stub)
    ensures Covered(log, lo, next', prod, cons)
  {
    hide Owed;
  }

  // A producer that neither owes nor comes to owe a link changes.
  lemma DueQuiet(log: seq<nat>, lo: nat, next: map<nat, nat>, prod: map<nat, Producer>, cons: Consumer, stub: nat, t: nat, p: Producer)
    requires t in prod && !prod[t].Owing? && !p.Owing?
    requires ProducersDue(log, lo, next, prod) && ConsumerDue(log, lo, next, prod, cons, stub)
    requires Covered(log, lo, next, prod, cons)
    ensures ProducersDue(log, lo, next, prod[t := p]) && ConsumerDue(log, lo, next, prod[t := p], cons, stub)
    ensures Covered(log, lo, next, prod[t := p], cons)
  {
    hide Due;
    forall j: nat | Owed(prod, cons, j)
      ensures Owed(prod[t := p], cons, j)
    {
      if !(cons.StubLink? && cons.j == j) {
        var u :| u in prod && prod[u].Owing? && prod[u].j == j;
        assert prod[t := p][u] == prod[u];
      }
    }
  }

  // A consumer that neither owes nor comes to owe a link changes.
  lemma DueRest(log: seq<nat>, lo: nat, next: map<nat, nat>, prod: map<nat, Producer>, cons: Consumer, cons': Consumer, stub: nat)
    requires !cons.StubLink? && !cons'.StubLink?
    requires Covered(log, lo, next, prod, cons)
    ensures ConsumerDue(log, lo, next, prod, cons', stub) && Covered(log, lo, next, prod, cons')
  {
    forall j: nat | Owed(prod, cons, j)
      ensures Owed(prod, cons', j)
    {
    }
  }

  // ---- the producers ---------------------------------------------------------------------

  lemma PrepareStep(s: State, t: nat, chain: seq<nat>)
    requires Core(s) && Enabled(s, Prepare(t, chain))
    ensures Core(Apply(s, Prepare(t, chain)))
  {
    hide ProducersDue, ConsumerDue, Covered, Links, ConsumerOk, Shape, Chains, Apart;
    var s' := Apply(s, Prepare(t, chain));
    PrepareApart(s.log, s.lo, s.idle, s.prod, s.stub, t, chain);
    PrepareSame(s, chain);
    DueElsewhere(s.log, s.lo, s.next, s'.next, s.prod, s.cons, s.stub);
    DueQuiet(s.log, s.lo, s'.next, s.prod, s.cons, s.stub, t, Linked(chain));
    PrepareChains(s, t, chain);
    ConsumerElsewhere(s.log, s.lo, s.cons, s.tail, s.next, s'.next, s.stub);
  }

  lemma ConsumerElsewhere(log: seq<nat>, lo: nat, cons: Consumer, tail: nat, next: map<nat, nat>, next': map<nat, nat>, stub: nat)
    requires ConsumerOk(log, lo, cons, tail, next, stub)
    requires stub !in next ==> stub !in next'
    ensures ConsumerOk(log, lo, cons, tail, next', stub)
  {
  }

  lemma PrepareSame(s: State, chain: seq<nat>)
    requires Apart(s.log, s.lo, s.idle, s.prod, s.stub)
    requires forall m :: 0 <= m < |chain| ==> chain[m] in s.idle
    ensures SameOn(s.log, s.lo, s.next, Chained(s.next, chain))
    ensures s.stub in Chained(s.next, chain) <==> s.stub in s.next
  {
    forall n | n in chain
      ensures n in s.idle
    {
      var m :| 0 <= m < |chain| && chain[m] == n;
    }
  }

  lemma PrepareChains(s: State, t: nat, chain: seq<nat>)
    requires Apart(s.log, s.lo, s.idle, s.prod, s.stub) && Chains(s.next, s.prod) && Enabled(s, Prepare(t, chain))
    ensures Chains(Chained(s.next, chain), s.prod[t := Linked(chain)])
  {
    var next' := Chained(s.next, chain);
    forall u | u in s.prod && u != t && Carrying(s.prod[u])
      ensures ChainOk(next', s.prod[u])
    {
      var c := s.prod[u].chain;
      assert ChainOk(s.next, s.prod[u]) && Fresh(s.log, s.lo, s.idle, c, s.stub);
      forall m | 0 <= m < |c|
        ensures c[m] !in chain
      {
      }
    }
    assert ChainOk(next', Linked(chain));
  }

  lemma PrepareApart(log: seq<nat>, lo: nat, idle: set<nat>, prod: map<nat, Producer>, stub: nat, t: nat, chain: seq<nat>)
    requires Apart(log, lo, idle, prod, stub) && t in prod && prod[t].Away?
    requires forall m :: 0 <= m < |chain| ==> chain[m] in idle
    ensures Apart(log, lo, idle - (set n | n in chain), prod[t := Linked(chain)], stub)
  {
    var idle' := idle - (set n | n in chain);
    var prod' := prod[t := Linked(chain)];
    assert Fresh(log, lo, idle', chain, stub);
    forall u | u in prod && u != t && Carrying(prod[u])
      ensures Fresh(log, lo, idle', prod[u].chain, stub)
      ensures Disjoint(prod[u].chain, chain) && Disjoint(chain, prod[u].chain)
    {
      assert Fresh(log, lo, idle, prod[u].chain, stub);
    }
  }

  lemma TerminateStep(s: State, t: nat)
    requires Core(s) && Enabled(s, Terminate(t))
    ensures Core(Apply(s, Terminate(t)))
  {
    hide ProducersDue, ConsumerDue, Covered, Links, ConsumerOk, Shape, Chains, Apart, Chained;
    var c := s.prod[t].chain;
    var next' := s.next - {Last(c)};
    TerminateApart(s, t);
    DueElsewhere(s.log, s.lo, s.next, next', s.prod, s.cons, s.stub);
    DueQuiet(s.log, s.lo, next', s.prod, s.cons, s.stub, t, Ended(c));
    ConsumerElsewhere(s.log, s.lo, s.cons, s.tail, s.next, next', s.stub);
  }

  lemma TerminateApart(s: State, t: nat)
    requires Apart(s.log, s.lo, s.idle, s.prod, s.stub) && Chains(s.next, s.prod) && Enabled(s, Terminate(t))
    ensures Apart(s.log, s.lo, s.idle, s.prod[t := Ended(s.prod[t].chain)], s.stub)
    ensures Chains(s.next - {Last(s.prod[t].chain)}, s.prod[t := Ended(s.prod[t].chain)])
    ensures SameOn(s.log, s.lo, s.next, s.next - {Last(s.prod[t].chain)})
  {
    hide Apply;
    var c := s.prod[t].chain;
    var next' := s.next - {Last(c)};
    var prod' := s.prod[t := Ended(c)];
    assert Fresh(s.log, s.lo, s.idle, c, s.stub);
    assert ChainOk(s.next, s.prod[t]);
    forall u | u in prod' && Carrying(prod'[u])
      ensures ChainOk(next', prod'[u])
    {
      assert ChainOk(s.next, s.prod[u]);
      if u != t {
        assert Disjoint(s.prod[u].chain, c);
      }
    }
  }

  // ---- an exchange on head_ ----------------------------------------------------------------

  lemma ShapeAppend(log: seq<nat>, lo: nat, head: nat, tail: nat, c: seq<nat>)
    requires Shape(log, lo, head, tail) && c != [] && Distinct(c)
    requires forall m, j :: 0 <= m < |c| && lo <= j < |log| ==> c[m] != log[j]
    ensures Shape(log + c, lo, Last(c), tail)
  {
  }

  lemma LinksAppend(log: seq<nat>, lo: nat, next: map<nat, nat>, c: seq<nat>)
    requires Links(log, lo, next) && c != [] && Last(c) !in next
    requires forall m :: 0 <= m < |c| - 1 ==> c[m] in next && next[c[m]] == c[m + 1]
    ensures Links(log + c, lo, next)
  {
    var l := log + c;
    forall j | lo <= j < |l| - 1 && l[j] in next
      ensures next[l[j]] == l[j + 1]
    {
      if j >= |log| {
        assert l[j] == c[j - |log|];
      } else if j < |log| - 1 {
        assert l[j] == log[j];
      }
    }
  }

  lemma DueAppend(log: seq<nat>, lo: nat, next: map<nat, nat>, prod: map<nat, Producer>, cons: Consumer, stub: nat, c: seq<nat>)
    requires c != []
    requires ProducersDue(log, lo, next, prod) && ConsumerDue(log, lo, next, prod, cons, stub)
    ensures ProducersDue(log + c, lo, next, prod) && ConsumerDue(log + c, lo, next, prod, cons, stub)
  {
  }

  lemma ProducerOwes(log: seq<nat>, lo: nat, next: map<nat, nat>, prod: map<nat, Producer>, cons: Consumer, stub: nat, t: nat, c: seq<nat>)
    requires t in prod && !prod[t].Owing? && c != [] && Links(log, lo, next)
    requires ProducersDue(log, lo, next, prod) && ConsumerDue(log, lo, next, prod, cons, stub)
    ensures ProducersDue(log + c, lo, next, prod[t := Owing(Last(log), c[0], Top(log))])
    ensures ConsumerDue(log + c, lo, next, prod[t := Owing(Last(log), c[0], Top(log))], cons, stub)
  {
    assert Due(log + c, lo, next, Last(log), c[0], Top(log));
    DueAppend(log, lo, next, prod, cons, stub, c);
  }

  lemma ProducerCovers(log: seq<nat>, lo: nat, next: map<nat, nat>, prod: map<nat, Producer>, cons: Consumer, t: nat, c: seq<nat>)
    requires t in prod && !prod[t].Owing? && c != [] && lo < |log|
    requires Covered(log, lo, next, prod, cons)
    requires forall m :: 0 <= m < |c| - 1 ==> c[m] in next
    ensures Covered(log + c, lo, next, prod[t := Owing(Last(log), c[0], Top(log))], cons)
  {
    var prod' := prod[t := Owing(Last(log), c[0], Top(log))];
    assert prod'[t].Owing? && prod'[t].j == Top(log);
    forall j: nat | lo <= j < |log + c| - 1 && (log + c)[j] !in next
      ensures Owed(prod', cons, j)
    {
      if j < |log| - 1 {
        assert (log + c)[j] == log[j];
        assert Owed(prod, cons, j);
        if !(cons.StubLink? && cons.j == j) {
          var u :| u in prod && prod[u].Owing? && prod[u].j == j;
          assert prod'[u] == prod[u];
        }
      } else if j < |log| {
        assert Owed(prod', cons, j);
      }
    }
  }

  lemma SwapApart(s: State, t: nat, p: Producer)
    requires Apart(s.log, s.lo, s.idle, s.prod, s.stub) && Chains(s.next, s.prod)
    requires t in s.prod && s.prod[t].Ended? && !Carrying(p)
    ensures Apart(s.log + s.prod[t].chain, s.lo, s.idle, s.prod[t := p], s.stub)
    ensures Chains(s.next, s.prod[t := p])
  {
    var c := s.prod[t].chain;
    var l := s.log + c;
    assert Fresh(s.log, s.lo, s.idle, c, s.stub);
    forall u | u in s.prod && u != t && Carrying(s.prod[u])
      ensures Fresh(l, s.lo, s.idle, s.prod[u].chain, s.stub)
    {
      assert Fresh(s.log, s.lo, s.idle, s.prod[u].chain, s.stub);
      assert Disjoint(s.prod[u].chain, c);
    }
    forall j | s.lo <= j < |l|
      ensures l[j] !in s.idle
    {
      if j >= |s.log| {
        assert l[j] == c[j - |s.log|];
      }
    }
  }

  lemma SwapChain(s: State, t: nat)
    requires Apart(s.log, s.lo, s.idle, s.prod, s.stub) && Chains(s.next, s.prod)
    requires t in s.prod && s.prod[t].Ended?
    ensures ChainOk(s.next, s.prod[t]) && Fresh(s.log, s.lo, s.idle, s.prod[t].chain, s.stub)
  {
  }

  lemma ConsumerAppend(log: seq<nat>, lo: nat, cons: Consumer, tail: nat, next: map<nat, nat>, stub: nat, c: seq<nat>)
    requires ConsumerOk(log, lo, cons, tail, next, stub)
    requires forall m :: 0 <= m < |c| ==> c[m] != stub
    ensures ConsumerOk(log + c, lo, cons, tail, next, stub)
  {
    if InLog(log + c, lo, stub) {
      var j :| lo <= j < |log + c| && (log + c)[j] == stub;
      if j < |log| {
        assert log[j] == stub;
      }
    }
  }

  lemma SwapStep(s: State, t: nat)
    requires Core(s) && Enabled(s, Swap(t))
    ensures Core(Apply(s, Swap(t)))
  {
    hide ProducersDue, ConsumerDue, Covered, ConsumerOk, Chains, Apart, Chained, Distinct;
    var c := s.prod[t].chain;
    SwapChain(s, t);
    SwapApart(s, t, Owing(s.head, c[0], Top(s.log)));
    ShapeAppend(s.log, s.lo, s.head, s.tail, c);
    LinksAppend(s.log, s.lo, s.next, c);
    ProducerOwes(s.log, s.lo, s.next, s.prod, s.cons, s.stub, t, c);
    ProducerCovers(s.log, s.lo, s.next, s.prod, s.cons, t, c);
    ConsumerAppend(s.log, s.lo, s.cons, s.tail, s.next, s.stub, c);
  }

  // ---- the link that follows it ------------------------------------------------------------

  // Storing the link owed at position j pays that debt and no other.
  lemma LinksStore(log: seq<nat>, lo: nat, head: nat, tail: nat, next: map<nat, nat>, prev: nat, first: nat, j: nat)
    requires Shape(log, lo, head, tail) && Links(log, lo, next) && Due(log, lo, next, prev, first, j)
    ensures Links(log, lo, next[prev := first])
  {
  }

  lemma DueStore(log: seq<nat>, lo: nat, head: nat, tail: nat, next: map<nat, nat>, prev: nat, first: nat, j: nat,
                 prev': nat, first': nat, j': nat)
    requires Shape(log, lo, head, tail) && Due(log, lo, next, prev, first, j) && Due(log, lo, next, prev', first', j') && j != j'
    ensures Due(log, lo, next[prev := first], prev', first', j')
  {
  }

  lemma LinkDue(s: State, t: nat)
    requires Core(s) && t in s.prod && s.prod[t].Owing?
    ensures Due(s.log, s.lo, s.next, s.prod[t].prev, s.prod[t].first, s.prod[t].j)
    ensures s.prod[t].prev == s.log[s.prod[t].j]
  {
    hide ConsumerDue, Covered, ConsumerOk, Chains, Apart, Links, Shape;
  }

  lemma LinkProducers(s: State, t: nat)
    requires Shape(s.log, s.lo, s.head, s.tail) && ProducersDue(s.log, s.lo, s.next, s.prod)
    requires t in s.prod && s.prod[t].Owing?
    ensures ProducersDue(s.log, s.lo, s.next[s.prod[t].prev := s.prod[t].first], s.prod[t := Away])
  {
    hide Shape, Due;
    var p := s.prod[t];
    var next' := s.next[p.prev := p.first];
    forall u | u in s.prod && u != t && s.prod[u].Owing?
      ensures Due(s.log, s.lo, next', s.prod[u].prev, s.prod[u].first, s.prod[u].j)
    {
      DueStore(s.log, s.lo, s.head, s.tail, s.next, p.prev, p.first, p.j, s.prod[u].prev, s.prod[u].first, s.prod[u].j);
    }
  }

  lemma LinkConsumer(s: State, t: nat)
    requires Shape(s.log, s.lo, s.head, s.tail) && ProducersDue(s.log, s.lo, s.next, s.prod)
    requires ConsumerDue(s.log, s.lo, s.next, s.prod, s.cons, s.stub)
    requires t in s.prod && s.prod[t].Owing?
    ensures ConsumerDue(s.log, s.lo, s.next[s.prod[t].prev := s.prod[t].first], s.prod[t := Away], s.cons, s.stub)
  {
    hide Shape, Due;
    var p := s.prod[t];
    if s.cons.StubLink? {
      DueStore(s.log, s.lo, s.head, s.tail, s.next, p.prev, p.first, p.j, s.cons.prev, s.stub, s.cons.j);
    }
  }

  lemma LinkCovered(log: seq<nat>, lo: nat, next: map<nat, nat>, prod: map<nat, Producer>, cons: Consumer, t: nat)
    requires Covered(log, lo, next, prod, cons) && t in prod && prod[t].Owing?
    requires prod[t].j < |log| && prod[t].prev == log[prod[t].j]
    ensures Covered(log, lo, next[prod[t].prev := prod[t].first], prod[t := Away], cons)
  {
    var next' := next[prod[t].prev := prod[t].first];
    var prod' := prod[t := Away];
    forall j: nat | lo <= j < |log| - 1 && log[j] !in next'
      ensures Owed(prod', cons, j)
    {
      assert Owed(prod, cons, j);
      if !(cons.StubLink? && cons.j == j) {
        var u :| u in prod && prod[u].Owing? && prod[u].j == j;
        assert prod'[u] == prod[u];
      }
    }
  }

  // No producer carries a node of the chain, so a store into one leaves every batch alone.
  lemma ChainsStore(s: State, j: nat, n: nat)
    requires Apart(s.log, s.lo, s.idle, s.prod, s.stub) && Chains(s.next, s.prod) && s.lo <= j < |s.log|
    ensures Chains(s.next[s.log[j] := n], s.prod)
  {
    forall u | u in s.prod && Carrying(s.prod[u])
      ensures ChainOk(s.next[s.log[j] := n], s.prod[u])
    {
      assert ChainOk(s.next, s.prod[u]) && Fresh(s.log, s.lo, s.idle, s.prod[u].chain, s.stub);
    }
  }

  lemma ChainsLeave(s: State, next: map<nat, nat>, t: nat)
    requires Apart(s.log, s.lo, s.idle, s.prod, s.stub) && Chains(next, s.prod)
    ensures Apart(s.log, s.lo, s.idle, s.prod[t := Away], s.stub) && Chains(next, s.prod[t := Away])
  {
    hide Fresh, Disjoint, ChainOk;
  }

  lemma ConsumerStore(log: seq<nat>, lo: nat, cons: Consumer, tail: nat, next: map<nat, nat>, stub: nat, j: nat, n: nat)
    requires ConsumerOk(log, lo, cons, tail, next, stub) && lo <= j < |log|
    ensures ConsumerOk(log, lo, cons, tail, next[log[j] := n], stub)
  {
    if cons.StubSwap? {
      assert log[j] != stub;
    }
  }

  lemma LinkStep(s: State, t: nat)
    requires Core(s) && Enabled(s, Link(t))
    ensures Core(Apply(s, Link(t)))
  {
    hide ProducersDue, ConsumerDue, Covered, ConsumerOk, Chains, Apart, Chained, Links, Shape;
    var p := s.prod[t];
    LinkDue(s, t);
    LinksStore(s.log, s.lo, s.head, s.tail, s.next, p.prev, p.first, p.j);
    LinkProducers(s, t);
    LinkConsumer(s, t);
    LinkCovered(s.log, s.lo, s.next, s.prod, s.cons, t);
    ChainsStore(s, p.j, p.first);
    ChainsLeave(s, s.next[p.prev := p.first], t);
    ConsumerStore(s.log, s.lo, s.cons, s.tail, s.next, s.stub, p.j, p.first);
  }

  // ---- the consumer moves past a node -------------------------------------------------------

  lemma ShapeAdvance(log: seq<nat>, lo: nat, head: nat, tail: nat, next: map<nat, nat>)
    requires Shape(log, lo, head, tail) && Links(log, lo, next) && tail in next
    ensures Shape(log, lo + 1, head, next[tail]) && Links(log, lo + 1, next)
    ensures !InLog(log, lo + 1, tail)
  {
  }

  // The node it leaves has its link already, so no store to it is owed.
  lemma DueAdvance(log: seq<nat>, lo: nat, next: map<nat, nat>, prod: map<nat, Producer>, cons: Consumer, stub: nat)
    requires lo < |log| && log[lo] in next
    requires ProducersDue(log, lo, next, prod) && Covered(log, lo, next, prod, cons)
    ensures ProducersDue(log, lo + 1, next, prod) && Covered(log, lo + 1, next, prod, cons)
  {
    hide Owed;
  }

  lemma ApartAdvance(log: seq<nat>, lo: nat, idle: set<nat>, prod: map<nat, Producer>, stub: nat)
    requires Apart(log, lo, idle, prod, stub) && lo < |log|
    ensures Apart(log, lo + 1, idle, prod, stub)
    ensures log[lo] != stub && !InLog(log, lo + 1, log[lo]) ==> Apart(log, lo + 1, idle + {log[lo]}, prod, stub)
  {
    hide Disjoint;
    forall u | u in prod && Carrying(prod[u])
      ensures Fresh(log, lo + 1, idle, prod[u].chain, stub)
      ensures Fresh(log, lo + 1, idle + {log[lo]}, prod[u].chain, stub)
    {
      assert Fresh(log, lo, idle, prod[u].chain, stub);
    }
    if !InLog(log, lo + 1, log[lo]) {
      forall j | lo + 1 <= j < |log|
        ensures log[j] !in idle + {log[lo]}
      {
      }
    }
  }

  lemma AdvanceCore(s: State, idle: set<nat>, cons: Consumer)
    requires Core(s) && s.tail in s.next && !s.cons.StubLink? && !cons.StubLink?
    requires idle == (if s.tail == s.stub then s.idle else s.idle + {s.tail})
    ensures ConsumerOk(s.log, s.lo + 1, cons, s.next[s.tail], s.next, s.stub) ==>
              Core(s.(tail := s.next[s.tail], lo := s.lo + 1, idle := idle, cons := cons))
    ensures s.tail == s.stub ==> s.next[s.tail] != s.stub
  {
    hide ProducersDue, ConsumerDue, Covered, ConsumerOk, Chains, Apart, Chained, Links;
    ShapeAdvance(s.log, s.lo, s.head, s.tail, s.next);
    DueAdvance(s.log, s.lo, s.next, s.prod, s.cons, s.stub);
    DueRest(s.log, s.lo + 1, s.next, s.prod, s.cons, cons, s.stub);
    ApartAdvance(s.log, s.lo, s.idle, s.prod, s.stub);
  }

  lemma ConsumerMoves(s: State, cons: Consumer)
    requires Core(s) && !s.cons.StubLink? && !cons.StubLink?
    requires ConsumerOk(s.log, s.lo, cons, s.tail, s.next, s.stub)
    ensures Core(s.(cons := cons))
  {
    hide ProducersDue, ConsumerDue, Covered, ConsumerOk, Chains, Apart, Chained, Links, Shape;
    DueRest(s.log, s.lo, s.next, s.prod, s.cons, cons, s.stub);
  }

  lemma ReturnCore(s: State)
    requires Core(s) && s.tail in s.next && s.tail != s.stub && !s.cons.StubLink?
    ensures Core(Return(s, s.tail))
  {
    hide Core, Apply;
    AdvanceCore(s, s.idle + {s.tail}, Rest(Got(s.tail)));
    CoreHistory(s.(tail := s.next[s.tail], lo := s.lo + 1, idle := s.idle + {s.tail}, cons := Rest(Got(s.tail))), s.committed, s.popped + [s.tail]);
  }

  lemma CoreHistory(s: State, committed: seq<nat>, popped: seq<nat>)
    requires Core(s)
    ensures Core(s.(committed := committed, popped := popped))
  {
    hide ProducersDue, ConsumerDue, Covered, ConsumerOk, Chains, Apart, Chained, Links, Shape;
  }

  lemma ConsumerFacts(s: State)
    requires Core(s)
    ensures ConsumerOk(s.log, s.lo, s.cons, s.tail, s.next, s.stub) && Shape(s.log, s.lo, s.head, s.tail)
  {
    hide ProducersDue, ConsumerDue, Covered, Chains, Apart, Chained, Links;
  }

  lemma PopStartStep(s: State)
    requires Core(s) && s.cons.Rest?
    ensures Core(Apply(s, PopStart))
  {
    hide Core, Shape, Return;
    if s.tail == s.stub {
      if s.stub !in s.next {
        ConsumerMoves(s, Rest(Failed));
      } else {
        AdvanceCore(s, s.idle, LoadNext(s.next[s.stub]));
      }
    } else if s.tail in s.next {
      ReturnCore(s);
    } else {
      ConsumerMoves(s, LoadHead(s.tail));
    }
  }

  lemma PopLoadStep(s: State, st: Step)
    requires Core(s) && Enabled(s, st) && (st.PopNext? || st.PopRecheck?)
    ensures Core(Apply(s, st))
  {
    hide Core, Shape, Return;
    ConsumerFacts(s);
    if s.tail in s.next {
      ReturnCore(s);
    } else if st.PopNext? {
      ConsumerMoves(s, LoadHead(s.tail));
    } else {
      ConsumerMoves(s, Rest(Failed));
    }
  }

  lemma PopHeadStep(s: State)
    requires Core(s) && s.cons.LoadHead?
    ensures Core(Apply(s, PopHead))
  {
    hide Core;
    ConsumerFacts(s);
    if s.cons.t != s.head {
      ConsumerMoves(s, Rest(Failed));
    } else {
      assert !InLog(s.log, s.lo, s.stub);
      ConsumerMoves(s, StubNull(s.cons.t));
    }
  }

  lemma AskStep(s: State, st: Step)
    requires Core(s) && Enabled(s, st) && (st.AskStart? || st.AskEnd?)
    ensures Core(Apply(s, st))
  {
    hide Core, Shape;
    if st.AskStart? {
      ConsumerMoves(s, if s.tail != s.stub || s.tail in s.next then Rest(Answer(false)) else AskHead);
    } else {
      ConsumerMoves(s, Rest(Answer(s.head == s.tail)));
    }
  }

  // ---- the consumer re-inserts the stub ------------------------------------------------------

  // The stub is in no batch and not in the chain here, so nulling its link disturbs nobody.
  lemma StubNullFrame(s: State)
    requires Apart(s.log, s.lo, s.idle, s.prod, s.stub) && Chains(s.next, s.prod) && !InLog(s.log, s.lo, s.stub)
    ensures SameOn(s.log, s.lo, s.next, s.next - {s.stub}) && Chains(s.next - {s.stub}, s.prod)
  {
    forall u | u in s.prod && Carrying(s.prod[u])
      ensures ChainOk(s.next - {s.stub}, s.prod[u])
    {
      assert ChainOk(s.next, s.prod[u]) && Fresh(s.log, s.lo, s.idle, s.prod[u].chain, s.stub);
    }
  }

  lemma StubNullStep(s: State)
    requires Core(s) && s.cons.StubNull?
    ensures Core(Apply(s, PopStubNull))
  {
    hide ProducersDue, ConsumerDue, Covered, Chains, Apart, Chained, Links, Shape, InLog;
    StubNullFrame(s);
    DueElsewhere(s.log, s.lo, s.next, s.next - {s.stub}, s.prod, s.cons, s.stub);
    DueRest(s.log, s.lo, s.next - {s.stub}, s.prod, s.cons, StubSwap(s.cons.t), s.stub);
  }

  lemma ConsumerOwes(log: seq<nat>, lo: nat, next: map<nat, nat>, prod: map<nat, Producer>, cons: Consumer, stub: nat, t: nat)
    requires Links(log, lo, next) && !cons.StubLink?
    requires ProducersDue(log, lo, next, prod) && Covered(log, lo, next, prod, cons)
    ensures ProducersDue(log + [stub], lo, next, prod)
    ensures ConsumerDue(log + [stub], lo, next, prod, StubLink(t, Last(log), Top(log)), stub)
    ensures Covered(log + [stub], lo, next, prod, StubLink(t, Last(log), Top(log)))
  {
    var cons' := StubLink(t, Last(log), Top(log));
    assert Due(log + [stub], lo, next, Last(log), stub, Top(log));
    forall j: nat | lo <= j < |log| && (log + [stub])[j] !in next
      ensures Owed(prod, cons', j)
    {
      if j < |log| - 1 {
        assert (log + [stub])[j] == log[j];
        assert Owed(prod, cons, j);
      }
    }
  }

  lemma ApartStub(log: seq<nat>, lo: nat, idle: set<nat>, prod: map<nat, Producer>, stub: nat)
    requires Apart(log, lo, idle, prod, stub)
    ensures Apart(log + [stub], lo, idle, prod, stub)
  {
    hide Disjoint;
    forall u | u in prod && Carrying(prod[u])
      ensures Fresh(log + [stub], lo, idle, prod[u].chain, stub)
    {
      assert Fresh(log, lo, idle, prod[u].chain, stub);
    }
  }

  lemma StubSwapStep(s: State)
    requires Core(s) && s.cons.StubSwap?
    ensures Core(Apply(s, PopStubSwap))
  {
    hide ProducersDue, ConsumerDue, Covered, Chains, Apart, Chained;
    ShapeAppend(s.log, s.lo, s.head, s.tail, [s.stub]);
    LinksAppend(s.log, s.lo, s.next, [s.stub]);
    ConsumerOwes(s.log, s.lo, s.next, s.prod, s.cons, s.stub, s.cons.t);
    ApartStub(s.log, s.lo, s.idle, s.prod, s.stub);
  }

  lemma StubLinkDue(s: State)
    requires Shape(s.log, s.lo, s.head, s.tail) && ProducersDue(s.log, s.lo, s.next, s.prod)
    requires s.cons.StubLink? && ConsumerDue(s.log, s.lo, s.next, s.prod, s.cons, s.stub)
    ensures ProducersDue(s.log, s.lo, s.next[s.cons.prev := s.stub], s.prod)
  {
    hide Shape, Due;
    forall u | u in s.prod && s.prod[u].Owing?
      ensures Due(s.log, s.lo, s.next[s.cons.prev := s.stub], s.prod[u].prev, s.prod[u].first, s.prod[u].j)
    {
      DueStore(s.log, s.lo, s.head, s.tail, s.next, s.cons.prev, s.stub, s.cons.j, s.prod[u].prev, s.prod[u].first, s.prod[u].j);
    }
  }

  lemma StubLinkCovered(log: seq<nat>, lo: nat, next: map<nat, nat>, prod: map<nat, Producer>, cons: Consumer, cons': Consumer, n: nat)
    requires Covered(log, lo, next, prod, cons) && cons.StubLink? && !cons'.StubLink?
    requires cons.j < |log| && cons.prev == log[cons.j]
    ensures Covered(log, lo, next[cons.prev := n], prod, cons')
  {
    forall j: nat | lo <= j < |log| - 1 && log[j] !in next[cons.prev := n]
      ensures Owed(prod, cons', j)
    {
      assert Owed(prod, cons, j);
    }
  }

  lemma StubLinkStep(s: State)
    requires Core(s) && s.cons.StubLink?
    ensures Core(Apply(s, PopStubLink))
  {
    hide ProducersDue, Covered, Chains, Apart, Chained, Links, Shape, InLog;
    var c := s.cons;
    LinksStore(s.log, s.lo, s.head, s.tail, s.next, c.prev, s.stub, c.j);
    StubLinkDue(s);
    StubLinkCovered(s.log, s.lo, s.next, s.prod, c, Recheck(c.t), s.stub);
    ChainsStore(s, c.j, s.stub);
  }

  // ---- every step ----------------------------------------------------------------------------

  lemma CoreStep(s: State, st: Step)
    requires Core(s) && Enabled(s, st)
    ensures Core(Apply(s, st))
  {
    hide Core, Apply;
    if st.Prepare? {
      PrepareStep(s, st.t, st.chain);
    } else if st.Terminate? {
      TerminateStep(s, st.t);
    } else if st.Swap? {
      SwapStep(s, st.t);
    } else if st.Link? {
      LinkStep(s, st.t);
    } else if st.PopStart? {
      PopStartStep(s);
    } else if st.PopNext? || st.PopRecheck? {
      PopLoadStep(s, st);
    } else if st.PopHead? {
      PopHeadStep(s);
    } else if st.PopStubNull? {
      StubNullStep(s);
    } else if st.PopStubSwap? {
      StubSwapStep(s);
    } else if st.PopStubLink? {
      StubLinkStep(s);
    } else {
      AskStep(s, st);
    }
  }
}
