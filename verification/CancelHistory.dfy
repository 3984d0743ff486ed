/**
 The life of cancellation scopes: any number of scopes taking, linking, publishing and giving back
 slots, and any number of callers cancelling through tokens, one access to shared memory a step.

 Scopes are numbered in the order they take their slots; a token is known by the scope that issued
 it.  The history is that numbering, `age` (how often each slot's generation was bumped), the scope
 each link names, and `struck`: the tenancies, slot and age, in which the flag was set.
 */
module CancelHistory {
  import opened CancelScopes

  datatype Phase = Taken | Resolved | Linked | Up | Bumped | Unlinked | Gone

  datatype Link = Root | Under(j: nat)

  datatype Scope = Scope(index: nat, age: nat, phase: Phase, want: Link, par: Link, raw: nat)

  // A caller of CancelVia holding the token of scope j.
  datatype Via = NoCall(ok: bool) | Trying(j: nat, st: nat)

  datatype State = State(
    table: seq<Slot>,
    free: set<nat>,
    scopes: seq<Scope>,
    via: map<nat, Via>,
    age: seq<nat>,
    struck: set<(nat, nat)>)

  datatype Step =
    | Acquire(i: nat, want: Link) | Resolve(k: nat) | MakeLink(k: nat) | Publish(k: nat)
    | Cancel(k: nat) | ViaLoad(c: nat, j: nat) | ViaStep(c: nat)
    | Bump(k: nat) | Unlink(k: nat) | Release(k: nat)

  predicate Is(s: State, k: nat, p: Phase) { k < |s.scopes| && s.scopes[k].phase == p && s.scopes[k].index < |s.table| == |s.age| }

  // Still under construction.
  predicate Unborn(p: Phase) { p.Taken? || p.Resolved? || p.Linked? }

  // Scope j has handed out its token.
  predicate Issued(s: State, j: nat) {
    j < |s.scopes| && !Unborn(s.scopes[j].phase) && s.scopes[j].index < |s.table| == |s.age|
  }

  predicate Enabled(s: State, st: Step)
  {
    match st
    case Acquire(i, want) => i in s.free && i < |s.table| == |s.age| && (want.Under? ==> Issued(s, want.j))
    case Resolve(k) => Is(s, k, Taken) && (s.scopes[k].want.Under? ==> Issued(s, s.scopes[k].want.j))
    case MakeLink(k) => Is(s, k, Resolved) && (s.scopes[k].par.Under? ==> Issued(s, s.scopes[k].par.j))
    case Publish(k) => Is(s, k, Linked)
    case Cancel(k) => Is(s, k, Up)
    case ViaLoad(c, j) => c in s.via && s.via[c].NoCall? && Issued(s, j)
    case ViaStep(c) => c in s.via && s.via[c].Trying? && Issued(s, s.via[c].j)
    case Bump(k) => Is(s, k, Up)
    case Unlink(k) => Is(s, k, Bumped)
    case Release(k) => Is(s, k, Unlinked)
  }

  function SetScope(s: State, k: nat, c: Scope): (s': State)
    requires k < |s.scopes|
  {
    s.(scopes := s.scopes[k := c])
  }

  // The flag goes up in the slot of scope k, whoever its tenant is by now.
  function Strike(s: State, k: nat): (s': State)
    requires k < |s.scopes| && s.scopes[k].index < |s.table| == |s.age|
  {
    var i := s.scopes[k].index;
    s.(table := WithFlag(s.table, i), struck := s.struck + {(i, s.age[i])})
  }

  function Apply(s: State, st: Step): (s': State)
    requires Enabled(s, st)
  {
    match st
    case Acquire(i, want) => s.(free := s.free - {i}, scopes := s.scopes + [Scope(i, s.age[i], Taken, want, Root, NO_TOKEN)])
    case Resolve(k) =>
      var c := s.scopes[k];
      var ok := c.want.Under? && Resolves(s.table, s.scopes[c.want.j].raw);
      SetScope(s, k, c.(phase := Resolved, par := if ok then c.want else Root))
    case MakeLink(k) =>
      var c := s.scopes[k];
      var parent := if c.par.Under? then s.scopes[c.par.j].raw else NO_TOKEN;
      SetScope(s, k, c.(phase := Linked)).(table := s.table[c.index := s.table[c.index].(parent := parent)])
    case Publish(k) =>
      var c := s.scopes[k];
      SetScope(s, k, c.(phase := Up, raw := GenOf(s.table[c.index].state) * 0x1_0000 + c.index))
    case Cancel(k) => Strike(s, k)
    case ViaLoad(c, j) => s.(via := s.via[c := Trying(j, s.table[s.scopes[j].index].state)])
    case ViaStep(c) =>
      var (j, st) := (s.via[c].j, s.via[c].st);
      if GenOf(st) != s.scopes[j].raw / 0x1_0000 then s.(via := s.via[c := NoCall(false)])
      else if CancelledIn(st) then s.(via := s.via[c := NoCall(true)])
      else if s.table[s.scopes[j].index].state == st then Strike(s, j).(via := s.via[c := NoCall(true)])
      else s.(via := s.via[c := Trying(j, s.table[s.scopes[j].index].state)])
    case Bump(k) =>
      var c := s.scopes[k];
      SetScope(s, k, c.(phase := Bumped))
        .(table := s.table[c.index := s.table[c.index].(state := Word(s.table[c.index].state / 0x1_0000_0000 + 1, false))],
          age := s.age[c.index := s.age[c.index] + 1])
    case Unlink(k) =>
      var c := s.scopes[k];
      SetScope(s, k, c.(phase := Unlinked)).(table := s.table[c.index := s.table[c.index].(parent := NO_TOKEN)])
    case Release(k) => SetScope(s, k, s.scopes[k].(phase := Gone)).(free := s.free + {s.scopes[k].index})
  }

  // The slot of scope j has been reused since, so often that its generation has come round to that of
  // the token of j.
  predicate Aliased(s: State, j: nat)
    requires Issued(s, j)
  {
    var age, c := s.age[s.scopes[j].index], s.scopes[j];
    age != c.age && age % 0x1_0000 == c.age % 0x1_0000
  }

  // The compare-and-swap of a CancelVia is about to succeed.
  predicate Swaps(s: State, c: nat)
    requires Enabled(s, ViaStep(c))
  {
    var (j, st) := (s.via[c].j, s.via[c].st);
    GenOf(st) == s.scopes[j].raw / 0x1_0000 && !CancelledIn(st) && s.table[s.scopes[j].index].state == st
  }

  ghost predicate Init(s: State)
  {
    && |s.table| == |s.age| == CANCEL_SLOTS && s.scopes == [] && s.struck == {}
    && (forall i :: 0 <= i < CANCEL_SLOTS ==> s.table[i] == Slot(0, NO_TOKEN) && s.age[i] == 0)
    && (forall i: nat :: i in s.free <==> i < CANCEL_SLOTS)
    && (forall c :: c in s.via ==> s.via[c].NoCall?)
  }

  ghost predicate Run(s: State, steps: seq<Step>, s': State)
    decreases |steps|
  {
    if steps == [] then s' == s
    else Enabled(s, steps[0]) && Run(Apply(s, steps[0]), steps[1..], s')
  }

  // ---- what every step keeps ------------------------------------------------------------------------------

  ghost predicate Words(table: seq<Slot>, age: seq<nat>) {
    && |table| == |age| == CANCEL_SLOTS
    && forall i :: 0 <= i < CANCEL_SLOTS ==> table[i].state == Word(age[i], CancelledIn(table[i].state))
  }

  predicate Holding(p: Phase) { Unborn(p) || p.Up? }

  ghost predicate ScopeOk(age: seq<nat>, c: Scope) {
    && c.index < |age|
    && (if Holding(c.phase) then c.age == age[c.index] else c.age < age[c.index])
    && (!Unborn(c.phase) ==> c.raw == Handle(c.age, c.index))
  }

  ghost predicate Ages(age: seq<nat>, scopes: seq<Scope>) {
    |age| == CANCEL_SLOTS && forall k :: 0 <= k < |scopes| ==> ScopeOk(age, scopes[k])
  }

  // Every slot is free or held by one scope.
  ghost predicate Owners(scopes: seq<Scope>, free: set<nat>) {
    && (forall k :: 0 <= k < |scopes| && !scopes[k].phase.Gone? ==> scopes[k].index !in free)
    && (forall k, l :: 0 <= k < l < |scopes| && !scopes[k].phase.Gone? && !scopes[l].phase.Gone? ==>
                         scopes[k].index != scopes[l].index)
  }

  // A flag is set exactly in the tenancies that were struck.
  ghost predicate Flags(table: seq<Slot>, age: seq<nat>, struck: set<(nat, nat)>) {
    && |table| == |age|
    && (forall i: nat :: i < |table| ==> (CancelledIn(table[i].state) <==> (i, age[i]) in struck))
    && (forall i: nat, a: nat :: (i, a) in struck ==> i < |age| && a <= age[i])
  }

  ghost predicate LinkOk(table: seq<Slot>, scopes: seq<Scope>, k: nat)
    requires k < |scopes|
  {
    var c := scopes[k];
    && (c.want.Under? ==> c.want.j < k)
    && (!c.phase.Taken? && c.par.Under? ==> c.par.j < k && !Unborn(scopes[c.par.j].phase))
    && (c.phase.Linked? || c.phase.Up? ==>
          c.index < |table| && table[c.index].parent == if c.par.Under? then ParRaw(scopes, c.par.j) else NO_TOKEN)
  }

  function ParRaw(scopes: seq<Scope>, j: nat): (raw: nat) { if j < |scopes| then scopes[j].raw else NO_TOKEN }

  ghost predicate Links(table: seq<Slot>, scopes: seq<Scope>) { forall k :: 0 <= k < |scopes| ==> LinkOk(table, scopes, k) }

  ghost predicate Inv(s: State) {
    && Words(s.table, s.age) && Ages(s.age, s.scopes) && Owners(s.scopes, s.free)
    && Flags(s.table, s.age, s.struck) && Links(s.table, s.scopes)
  }

  // A token resolves exactly while its scope is up or its generation has come round.
  lemma ResolvesWhen(s: State, j: nat)
    requires Words(s.table, s.age) && Ages(s.age, s.scopes) && Issued(s, j)
    ensures Resolves(s.table, s.scopes[j].raw) <==> s.scopes[j].phase.Up? || Aliased(s, j)
    ensures GenOf(s.table[s.scopes[j].index].state) == s.scopes[j].raw / 0x1_0000 <==> s.scopes[j].phase.Up? || Aliased(s, j)
    ensures IndexOf(s.scopes[j].raw) == s.scopes[j].index && s.scopes[j].raw != NO_TOKEN
    ensures s.scopes[j].phase.Up? ==> !Aliased(s, j)
  {
    var c := s.scopes[j];
    assert ScopeOk(s.age, c);
    HandleParts(c.age, c.index);
    WordParts(s.age[c.index], CancelledIn(s.table[c.index].state));
  }

  // Whatever token it came through.
  lemma StrikeInv(s: State, k: nat)
    requires Inv(s) && k < |s.scopes| && s.scopes[k].index < |s.table|
    ensures Inv(Strike(s, k))
  {
    var i := s.scopes[k].index;
    var table' := WithFlag(s.table, i);
    assert Words(table', s.age) by { FlaggedWord(s.age[i], CancelledIn(s.table[i].state)); WordParts(s.age[i], true); }
    assert Flags(table', s.age, s.struck + {(i, s.age[i])});
    assert Links(table', s.scopes) by {
      forall l | 0 <= l < |s.scopes| ensures LinkOk(table', s.scopes, l) { assert LinkOk(s.table, s.scopes, l); }
    }
  }

  // ---- the scope's own steps ----------------------------------------------------------------------------------

  lemma AcquireInv(s: State, i: nat, want: Link)
    requires Inv(s) && Enabled(s, Acquire(i, want))
    ensures Inv(Apply(s, Acquire(i, want)))
  {
    var scopes' := s.scopes + [Scope(i, s.age[i], Taken, want, Root, NO_TOKEN)];
    hide Words, Flags;
    forall k | 0 <= k < |scopes'|
      ensures LinkOk(s.table, scopes', k)
    {
      if k < |s.scopes| {
        assert LinkOk(s.table, s.scopes, k);
      }
    }
  }

  lemma OnlyHolder(scopes: seq<Scope>, free: set<nat>, k: nat)
    requires Owners(scopes, free) && k < |scopes| && !scopes[k].phase.Gone?
    ensures forall l :: 0 <= l < |scopes| && l != k && !scopes[l].phase.Gone? ==> scopes[l].index != scopes[k].index
  {
  }

  lemma LinksMove(table: seq<Slot>, table': seq<Slot>, scopes: seq<Scope>, k: nat, c: Scope)
    requires Links(table, scopes) && k < |scopes| && |table'| == |table|
    requires c.index == scopes[k].index < |table| && LinkOk(table', scopes[k := c], k)
    requires forall i :: 0 <= i < |table| && i != c.index ==> table'[i].parent == table[i].parent
    requires forall l :: 0 <= l < |scopes| && l != k && !scopes[l].phase.Gone? ==> scopes[l].index != c.index
    requires Unborn(scopes[k].phase) || (!Unborn(c.phase) && c.raw == scopes[k].raw)
    ensures Links(table', scopes[k := c])
  {
    var scopes' := scopes[k := c];
    forall l | 0 <= l < |scopes'|
      ensures LinkOk(table', scopes', l)
    {
      assert LinkOk(table, scopes, l);
    }
  }

  lemma OwnersMove(scopes: seq<Scope>, free: set<nat>, k: nat, c: Scope)
    requires Owners(scopes, free) && k < |scopes| && c.index == scopes[k].index && !scopes[k].phase.Gone? && !c.phase.Gone?
    ensures Owners(scopes[k := c], free)
  {
  }

  lemma MoveInv(s: State, k: nat, c: Scope, table: seq<Slot>)
    requires Inv(s) && k < |s.scopes| && !s.scopes[k].phase.Gone? && !c.phase.Gone? && c.index == s.scopes[k].index
    requires |table| == |s.table| && forall i :: 0 <= i < |table| ==> table[i].state == s.table[i].state
    requires forall i :: 0 <= i < |table| && i != c.index ==> table[i].parent == s.table[i].parent
    requires ScopeOk(s.age, c) && LinkOk(table, s.scopes[k := c], k)
    requires Unborn(s.scopes[k].phase) || (!Unborn(c.phase) && c.raw == s.scopes[k].raw)
    ensures Inv(s.(scopes := s.scopes[k := c], table := table))
  {
    OnlyHolder(s.scopes, s.free, k);
    hide Links, Owners, LinkOk;
    assert Words(table, s.age) && Flags(table, s.age, s.struck);
    hide Words, Flags;
    OwnersMove(s.scopes, s.free, k, c);
    LinksMove(s.table, table, s.scopes, k, c);
  }

  lemma ScopeFacts(s: State, k: nat)
    requires Inv(s) && k < |s.scopes|
    ensures ScopeOk(s.age, s.scopes[k]) && LinkOk(s.table, s.scopes, k) && Words(s.table, s.age) && Ages(s.age, s.scopes)
  {
    hide Owners, Flags, Words, ScopeOk, LinkOk;
  }

  lemma BirthInv(s: State, st: Step)
    requires Inv(s) && Enabled(s, st) && (st.Resolve? || st.MakeLink? || st.Publish? || st.Unlink?)
    ensures Inv(Apply(s, st))
  {
    hide Inv, Words, Ages;
    var s' := Apply(s, st);
    ScopeFacts(s, st.k);
    var c := s.scopes[st.k];
    if st.Publish? {
      WordParts(s.age[c.index], CancelledIn(s.table[c.index].state));
      assert s.table[c.index].state == Word(s.age[c.index], CancelledIn(s.table[c.index].state)) by { WordAt(s, c.index); }
      MoveInv(s, st.k, s'.scopes[st.k], s.table);
    } else {
      MoveInv(s, st.k, s'.scopes[st.k], s'.table);
    }
  }

  lemma WordAt(s: State, i: nat)
    requires Words(s.table, s.age) && i < |s.table|
    ensures s.table[i].state == Word(s.age[i], CancelledIn(s.table[i].state))
  {
  }

  // ---- giving the slot back ------------------------------------------------------------------------------------------

  lemma NextWord(gen: nat, c: bool)
    ensures Word(Word(gen, c) / 0x1_0000_0000 + 1, false) == Word(gen + 1, false)
  {
    WordParts(gen, c);
  }

  lemma BumpAges(s: State, k: nat, c: Scope)
    requires Ages(s.age, s.scopes) && Owners(s.scopes, s.free) && Is(s, k, Up) && c == s.scopes[k].(phase := Bumped)
    ensures Ages(s.age[c.index := s.age[c.index] + 1], s.scopes[k := c])
  {
    var age' := s.age[c.index := s.age[c.index] + 1];
    OnlyHolder(s.scopes, s.free, k);
    var scopes' := s.scopes[k := c];
    forall l | 0 <= l < |scopes'|
      ensures ScopeOk(age', scopes'[l])
    {
      assert ScopeOk(s.age, s.scopes[l]);
    }
  }

  lemma BumpInv(s: State, k: nat)
    requires Inv(s) && Is(s, k, Up)
    ensures Inv(Apply(s, Bump(k)))
  {
    var c := s.scopes[k].(phase := Bumped);
    var i := c.index;
    var s' := Apply(s, Bump(k));
    ScopeFacts(s, k);
    NextWord(s.age[i], CancelledIn(s.table[i].state));
    WordParts(s.age[i] + 1, false);
    assert s'.table[i].state == Word(s'.age[i], false);
    assert Words(s'.table, s'.age) && Flags(s'.table, s'.age, s.struck);
    hide Words, Flags;
    OnlyHolder(s.scopes, s.free, k);
    BumpAges(s, k, c);
    hide Ages;
    OwnersMove(s.scopes, s.free, k, c);
    hide Owners;
    LinksMove(s.table, s'.table, s.scopes, k, c);
  }

  lemma ReleaseInv(s: State, k: nat)
    requires Inv(s) && Is(s, k, Unlinked)
    ensures Inv(Apply(s, Release(k)))
  {
    var c := s.scopes[k].(phase := Gone);
    var scopes' := s.scopes[k := c];
    hide Words, Flags;
    ScopeFacts(s, k);
    OnlyHolder(s.scopes, s.free, k);
    assert Owners(scopes', s.free + {c.index});
    hide Owners;
    assert Ages(s.age, scopes');
    hide Ages;
    LinksMove(s.table, s.table, s.scopes, k, c);
  }

  // ---- every step ------------------------------------------------------------------------------------

  lemma ViaInv(s: State, st: Step)
    requires Inv(s) && Enabled(s, st) && (st.Cancel? || st.ViaStep? || st.ViaLoad?)
    ensures Inv(Apply(s, st))
  {
    hide Words, Ages, Owners, Flags, Links;
    if st.Cancel? {
      StrikeInv(s, st.k);
    } else if st.ViaStep? && Swaps(s, st.c) {
      StrikeInv(s, s.via[st.c].j);
    }
  }

  lemma InvStep(s: State, st: Step)
    requires Inv(s) && Enabled(s, st)
    ensures Inv(Apply(s, st))
  {
    hide Inv, Apply;
    if st.Acquire? {
      AcquireInv(s, st.i, st.want);
    } else if st.Bump? {
      BumpInv(s, st.k);
    } else if st.Release? {
      ReleaseInv(s, st.k);
    } else if st.Resolve? || st.MakeLink? || st.Publish? || st.Unlink? {
      BirthInv(s, st);
    } else {
      ViaInv(s, st);
    }
  }

  lemma {:induction false} InvRun(s: State, steps: seq<Step>, s': State)
    requires Inv(s) && Run(s, steps, s')
    ensures Inv(s')
    decreases |steps|
  {
    hide Inv, Apply, Enabled;
    if steps != [] {
      InvStep(s, steps[0]);
      InvRun(Apply(s, steps[0]), steps[1..], s');
    }
  }

  lemma Reachable(s0: State, steps: seq<Step>, s: State)
    requires Init(s0) && Run(s0, steps, s)
    ensures Inv(s)
  {
    assert Inv(s0);
    InvRun(s0, steps, s);
  }
}
