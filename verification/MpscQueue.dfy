/**
 The intrusive multi-producer single-consumer task queue, at the level of its pointers: producers
 commit with an exchange on `head_` and link afterwards, the consumer re-inserts a stub.

 One step is one access to shared memory.  `tail_` and the consumer's locals are private to it.
 The fields `log`, `lo`, `committed`, `popped` and the index an owed link carries are history: no
 guard and no other effect reads them.
 */
module MpscQueue {

  // A producer in push or push_batch; `chain` is the run of tasks it is pushing.
  datatype Producer = Away | Linked(chain: seq<nat>) | Ended(chain: seq<nat>) | Owing(prev: nat, first: nat, j: nat)

  datatype Outcome = NoneYet | Failed | Got(task: nat) | Answer(yes: bool)

  // The consumer in pop, or in quiescent.
  datatype Consumer = Rest(last: Outcome)
                    | LoadNext(t: nat) | LoadHead(t: nat) | StubNull(t: nat) | StubSwap(t: nat)
                    | StubLink(t: nat, prev: nat, j: nat) | Recheck(t: nat) | AskHead

  datatype State = State(
    stub: nat,
    head: nat,
    tail: nat,
    next: map<nat, nat>,        // absent means null
    idle: set<nat>,             // tasks in nobody's queue, free to be pushed
    prod: map<nat, Producer>,
    cons: Consumer,
    log: seq<nat>,              // every node exchanged into head_, in order, the first stub included
    lo: nat,                    // how many of them the consumer has moved past
    committed: seq<nat>,        // tasks in the order of their exchanges
    popped: seq<nat>)           // tasks in the order pop returned them

  datatype Step =
    | Prepare(t: nat, chain: seq<nat>) | Terminate(t: nat) | Swap(t: nat) | Link(t: nat)
    | PopStart | PopNext | PopHead | PopStubNull | PopStubSwap | PopStubLink | PopRecheck
    | AskStart | AskEnd

  predicate Distinct(c: seq<nat>) { forall i, j :: 0 <= i < j < |c| ==> c[i] != c[j] }

  // The links inside a batch, stored before it is pushed.
  function Chained(next: map<nat, nat>, c: seq<nat>): (r: map<nat, nat>)
    ensures forall n :: n !in c ==> (n in r <==> n in next) && (n in next ==> r[n] == next[n])
    ensures Distinct(c) ==> forall m :: 0 <= m < |c| - 1 ==> c[m] in r && r[c[m]] == c[m + 1]
  {
    if |c| < 2 then next
    else
      var r := Chained(next, c[1..]);
      r[c[0] := c[1]]
  }

  predicate Enabled(s: State, st: Step)
  {
    match st
    case Prepare(t, chain) => t in s.prod && s.prod[t].Away? && chain != [] && Distinct(chain)
                              && forall m :: 0 <= m < |chain| ==> chain[m] in s.idle
    case Terminate(t) => t in s.prod && s.prod[t].Linked? && s.prod[t].chain != []
    case Swap(t) => t in s.prod && s.prod[t].Ended? && s.prod[t].chain != []
    case Link(t) => t in s.prod && s.prod[t].Owing?
    case PopStart => s.cons.Rest?
    case PopNext => s.cons.LoadNext?
    case PopHead => s.cons.LoadHead?
    case PopStubNull => s.cons.StubNull?
    case PopStubSwap => s.cons.StubSwap?
    case PopStubLink => s.cons.StubLink?
    case PopRecheck => s.cons.Recheck?
    case AskStart => s.cons.Rest?
    case AskEnd => s.cons.AskHead?
  }

  function Last(c: seq<nat>): (n: nat)
    requires c != []
  {
    c[|c| - 1]
  }

  // The index of the node head_ points at.
  function Top(log: seq<nat>): (j: nat)
    ensures log != [] ==> j == |log| - 1
  {
    if log == [] then 0 else |log| - 1
  }

  // pop hands out t and moves tail_ to its successor.
  function Return(s: State, t: nat): (s': State)
    requires t in s.next
  {
    s.(tail := s.next[t], cons := Rest(Got(t)), idle := s.idle + {t}, lo := s.lo + 1, popped := s.popped + [t])
  }

  function Apply(s: State, st: Step): (s': State)
    requires Enabled(s, st)
  {
    match st
    case Prepare(t, chain) =>
      s.(prod := s.prod[t := Linked(chain)], next := Chained(s.next, chain), idle := s.idle - (set n | n in chain))
    case Terminate(t) =>
      s.(prod := s.prod[t := Ended(s.prod[t].chain)], next := s.next - {Last(s.prod[t].chain)})
    case Swap(t) =>
      var c := s.prod[t].chain;
      s.(prod := s.prod[t := Owing(s.head, c[0], Top(s.log))], head := Last(c), log := s.log + c, committed := s.committed + c)
    case Link(t) =>
      s.(prod := s.prod[t := Away], next := s.next[s.prod[t].prev := s.prod[t].first])
    case PopStart =>
      if s.tail == s.stub then
        if s.stub !in s.next then s.(cons := Rest(Failed))
        else s.(tail := s.next[s.stub], cons := LoadNext(s.next[s.stub]), lo := s.lo + 1)
      else if s.tail in s.next then Return(s, s.tail)
      else s.(cons := LoadHead(s.tail))
    case PopNext =>
      if s.cons.t in s.next then Return(s, s.cons.t) else s.(cons := LoadHead(s.cons.t))
    case PopHead =>
      if s.cons.t != s.head then s.(cons := Rest(Failed)) else s.(cons := StubNull(s.cons.t))
    case PopStubNull => s.(next := s.next - {s.stub}, cons := StubSwap(s.cons.t))
    case PopStubSwap =>
      s.(cons := StubLink(s.cons.t, s.head, Top(s.log)), head := s.stub, log := s.log + [s.stub])
    case PopStubLink => s.(next := s.next[s.cons.prev := s.stub], cons := Recheck(s.cons.t))
    case PopRecheck =>
      if s.cons.t in s.next then Return(s, s.cons.t) else s.(cons := Rest(Failed))
    case AskStart =>
      s.(cons := if s.tail != s.stub || s.tail in s.next then Rest(Answer(false)) else AskHead)
    case AskEnd => s.(cons := Rest(Answer(s.head == s.tail)))
  }

  // TaskMPSCQueue::empty, a query of the consumer
  predicate Empty(s: State) { s.tail == s.stub && s.tail !in s.next }
}
