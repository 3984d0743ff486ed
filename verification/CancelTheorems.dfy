/**
 Cancellation scopes over every history: a stale token is dead exactly while it is not aliased, a
 cancel lands on its own scope exactly then, a walk follows the scopes that enclose exactly while no
 link on its way is aliased, and then it cannot cycle; fewer than 65,536 reuses never alias, and there
 is a history of 65,536 after which a cycle exists.
 */
module CancelTheorems {
  import opened CancelScopes
  import opened CancelHistory

  // A token resolves exactly while its scope is up or its generation has come round.
  lemma ResolvesExactly(s0: State, steps: seq<Step>, s: State, j: nat)
    requires Init(s0) && Run(s0, steps, s) && Issued(s, j)
    ensures Resolves(s.table, s.scopes[j].raw) <==> s.scopes[j].phase.Up? || Aliased(s, j)
    ensures s.scopes[j].phase.Up? ==> !Aliased(s, j)
  {
    hide Run, Init, Owners, Flags, Links;
    Reachable(s0, steps, s);
    ResolvesWhen(s, j);
  }

  // The bound the source documents.
  lemma YoungIsNotAliased(s0: State, steps: seq<Step>, s: State, j: nat)
    requires Init(s0) && Run(s0, steps, s) && Issued(s, j) && s.age[s.scopes[j].index] < s.scopes[j].age + 0x1_0000
    ensures !Aliased(s, j)
  {
    hide Run, Init, Owners, Flags, Links;
    Reachable(s0, steps, s);
    assert ScopeOk(s.age, s.scopes[j]);
    SameResidue(s.age[s.scopes[j].index], s.scopes[j].age);
  }

  lemma SameResidue(a: nat, b: nat)
    requires b <= a < b + 0x1_0000
    ensures a % 0x1_0000 == b % 0x1_0000 <==> a == b
  {
  }

  // The token of a destroyed scope resolves exactly if it is aliased.  Otherwise it reads as not
  // cancelled, and a cancel through it, wherever it has got to, changes nothing.
  lemma StaleTokenIsDead(s0: State, steps: seq<Step>, s: State, j: nat)
    requires Init(s0) && Run(s0, steps, s) && Issued(s, j) && !s.scopes[j].phase.Up?
    ensures Resolves(s.table, s.scopes[j].raw) <==> Aliased(s, j)
    ensures !Aliased(s, j) ==> !IsCancelled(s.table, s.scopes[j].raw)
    ensures forall c :: !Aliased(s, j) && Enabled(s, ViaStep(c)) && s.via[c].j == j ==>
                          Apply(s, ViaStep(c)).table == s.table && Apply(s, ViaStep(c)).struck == s.struck
  {
    hide Run, Init, Owners, Flags, Links;
    Reachable(s0, steps, s);
    ResolvesWhen(s, j);
  }

  // Scope k's time in its slot.
  function Tenancy(c: Scope): (t: (nat, nat)) { (c.index, c.age) }

  // A cancel that takes effect strikes the tenancy of the scope it was meant for, still up, exactly if
  // its token is not aliased; otherwise it strikes a later one.
  lemma CancelLandsOnItsScope(s0: State, steps: seq<Step>, s: State, st: Step)
    requires Init(s0) && Run(s0, steps, s) && Enabled(s, st) && (st.Cancel? || st.ViaStep?)
    requires Apply(s, st).table != s.table
    ensures var k := if st.Cancel? then st.k else s.via[st.c].j;
            && Issued(s, k) && (s.scopes[k].phase.Up? <==> !Aliased(s, k))
            && Apply(s, st).table == WithFlag(s.table, s.scopes[k].index)
            && (!Aliased(s, k) ==> Apply(s, st).struck == s.struck + {Tenancy(s.scopes[k])})
            && (Aliased(s, k) ==> exists a :: a > s.scopes[k].age && Apply(s, st).struck == s.struck + {(s.scopes[k].index, a)})
  {
    hide Run, Init, Words, Ages, Owners, Flags, Links;
    Reachable(s0, steps, s);
    var k := if st.Cancel? then st.k else s.via[st.c].j;
    ScopeFacts(s, k);
    ResolvesWhen(s, k);
  }

  // No other step strikes anything.
  lemma OnlyCancelsStrike(s: State, st: Step)
    requires Enabled(s, st) && Apply(s, st).struck != s.struck
    ensures st.Cancel? || (st.ViaStep? && Swaps(s, st.c))
  {
    if st.ViaStep? {} else if st.Acquire? {} else {}
  }

  // ---- the walk follows the scopes ------------------------------------------------------------------------------

  // The scopes that enclose k and are up, k first, at most `depth` of them.
  function Enclosing(s: State, k: nat, depth: nat): (r: seq<nat>)
    requires forall l :: 0 <= l < |s.scopes| ==> LinkOk(s.table, s.scopes, l)
    ensures |r| <= depth
    ensures forall d :: 0 <= d < |r| ==> r[d] < |s.scopes| && s.scopes[r[d]].phase.Up? && r[d] <= k
    ensures forall d, e :: 0 <= d < e < |r| ==> r[d] > r[e]
    decreases depth
  {
    if depth == 0 || k >= |s.scopes| || !s.scopes[k].phase.Up? then []
    else
      assert LinkOk(s.table, s.scopes, k);
      if s.scopes[k].par.Root? then [k] else [k] + Enclosing(s, s.scopes[k].par.j, depth - 1)
  }

  function Raws(s: State, ks: seq<nat>): (r: seq<nat>)
    requires forall d :: 0 <= d < |ks| ==> ks[d] < |s.scopes|
    ensures |r| == |ks| && forall d :: 0 <= d < |r| ==> r[d] == s.scopes[ks[d]].raw
  {
    seq(|ks|, d requires 0 <= d < |ks| => s.scopes[ks[d]].raw)
  }

  // Going up from the token of k, within `depth` handles, there is an aliased one.
  ghost predicate AliasedPath(s: State, k: nat, depth: nat)
    requires forall l :: 0 <= l < |s.scopes| ==> LinkOk(s.table, s.scopes, l)
    decreases depth
  {
    depth > 0 && k < |s.scopes| &&
    if s.scopes[k].phase.Up? then
      assert LinkOk(s.table, s.scopes, k);
      s.scopes[k].par.Under? && AliasedPath(s, s.scopes[k].par.j, depth - 1)
    else Issued(s, k) && Aliased(s, k)
  }

  lemma UpResolves(s: State, k: nat)
    requires Inv(s) && k < |s.scopes| && s.scopes[k].phase.Up?
    ensures Issued(s, k) && !Aliased(s, k) && s.scopes[k].raw != NO_TOKEN && IndexOf(s.scopes[k].raw) == s.scopes[k].index
    ensures Resolves(s.table, s.scopes[k].raw) && LinkOk(s.table, s.scopes, k)
  {
    hide Owners, Flags;
    ScopeFacts(s, k);
    ResolvesWhen(s, k);
  }

  // The handles a walk resolves are those of the enclosing scopes, in order, exactly if no handle on
  // its way is aliased.
  lemma {:induction false} WalkIsEnclosing(s: State, k: nat, depth: nat)
    requires Inv(s) && Issued(s, k)
    ensures Chain(s.table, s.scopes[k].raw, depth) == Raws(s, Enclosing(s, k, depth)) <==> !AliasedPath(s, k, depth)
    decreases depth
  {
    hide Words, Ages, Owners, Flags;
    if depth == 0 {
    } else if !s.scopes[k].phase.Up? {
      StaleChain(s, k, depth);
    } else {
      UpResolves(s, k);
      hide Inv;
      UpChain(s, k, depth);
      var c := s.scopes[k];
      if c.par.Under? {
        ParentIssued(s, k);
        WalkIsEnclosing(s, c.par.j, depth - 1);
        SameTail(c.raw, Chain(s.table, s.scopes[c.par.j].raw, depth - 1), Raws(s, Enclosing(s, c.par.j, depth - 1)));
      }
    }
  }

  lemma SameTail(x: nat, a: seq<nat>, b: seq<nat>)
    ensures [x] + a == [x] + b <==> a == b
  {
    assert ([x] + a)[1..] == a && ([x] + b)[1..] == b;
  }

  lemma StaleChain(s: State, k: nat, depth: nat)
    requires Inv(s) && Issued(s, k) && !s.scopes[k].phase.Up? && depth > 0
    ensures Chain(s.table, s.scopes[k].raw, depth) != [] <==> Aliased(s, k)
  {
    hide Owners, Flags, Links;
    ResolvesWhen(s, k);
  }

  // One scope that is up, and what is above it.
  lemma UpChain(s: State, k: nat, depth: nat)
    requires Inv(s) && k < |s.scopes| && s.scopes[k].phase.Up? && depth > 0
    ensures forall l :: 0 <= l < |s.scopes| ==> LinkOk(s.table, s.scopes, l)
    ensures var c := s.scopes[k];
            if c.par.Under? then
              && c.par.j < |s.scopes|
              && Chain(s.table, c.raw, depth) == [c.raw] + Chain(s.table, s.scopes[c.par.j].raw, depth - 1)
              && Raws(s, Enclosing(s, k, depth)) == [c.raw] + Raws(s, Enclosing(s, c.par.j, depth - 1))
            else Chain(s.table, c.raw, depth) == Raws(s, Enclosing(s, k, depth)) == [c.raw]
  {
    hide Words, Ages, Owners, Flags;
    UpResolves(s, k);
    var c := s.scopes[k];
    if c.par.Under? {
      assert Raws(s, [k] + Enclosing(s, c.par.j, depth - 1)) == [c.raw] + Raws(s, Enclosing(s, c.par.j, depth - 1));
    } else {
      assert Chain(s.table, NO_TOKEN, depth - 1) == [];
      assert Raws(s, [k]) == [c.raw];
    }
  }

  lemma ParentIssued(s: State, k: nat)
    requires Inv(s) && k < |s.scopes| && s.scopes[k].phase.Up? && s.scopes[k].par.Under?
    ensures Issued(s, s.scopes[k].par.j)
  {
    hide Owners, Flags;
    ScopeFacts(s, k);
    assert ScopeOk(s.age, s.scopes[s.scopes[k].par.j]);
  }

  // While the slots named by stored parents have been reused fewer than 65,536 times, no way up from a
  // scope that is up meets an aliased handle.
  lemma {:induction false} YoungPath(s: State, k: nat, depth: nat)
    requires Inv(s) && k < |s.scopes| && (Issued(s, k) ==> !Aliased(s, k))
    requires forall l :: 0 <= l < |s.scopes| && s.scopes[l].phase.Up? && s.scopes[l].par.Under? && Issued(s, s.scopes[l].par.j) ==>
                           s.age[s.scopes[s.scopes[l].par.j].index] < s.scopes[s.scopes[l].par.j].age + 0x1_0000
    ensures !AliasedPath(s, k, depth)
    decreases depth
  {
    hide Words, Owners, Flags;
    if depth > 0 && s.scopes[k].phase.Up? && s.scopes[k].par.Under? {
      var j := s.scopes[k].par.j;
      ParentIssued(s, k);
      assert ScopeOk(s.age, s.scopes[j]);
      SameResidue(s.age[s.scopes[j].index], s.scopes[j].age);
      YoungPath(s, j, depth - 1);
    }
  }

  // A scope reads as cancelled exactly when it, or one of the next seven scopes around it, was struck.
  lemma CancelledIsStruckAround(s0: State, steps: seq<Step>, s: State, k: nat)
    requires Init(s0) && Run(s0, steps, s) && k < |s.scopes| && s.scopes[k].phase.Up?
    ensures forall l :: 0 <= l < |s.scopes| ==> LinkOk(s.table, s.scopes, l)
    ensures AliasedPath(s, k, MAX_SCOPE_DEPTH) || (IsCancelled(s.table, s.scopes[k].raw) <==>
            exists d :: 0 <= d < |Enclosing(s, k, MAX_SCOPE_DEPTH)| && Tenancy(s.scopes[Enclosing(s, k, MAX_SCOPE_DEPTH)[d]]) in s.struck)
  {
    hide Run, Init;
    Reachable(s0, steps, s);
    hide Words, Ages, Owners, Flags, Chain;
    UpResolves(s, k);
    WalkIsEnclosing(s, k, MAX_SCOPE_DEPTH);
    var ks := Enclosing(s, k, MAX_SCOPE_DEPTH);
    hide Enclosing, AliasedPath;
    forall d | 0 <= d < |ks|
      ensures Resolves(s.table, Raws(s, ks)[d]) && (CancelledIn(s.table[IndexOf(Raws(s, ks)[d])].state) <==> Tenancy(s.scopes[ks[d]]) in s.struck)
    {
      UpResolves(s, ks[d]);
      FlagIsStruck(s, ks[d]);
    }
  }

  lemma FlagIsStruck(s: State, k: nat)
    requires Inv(s) && k < |s.scopes| && s.scopes[k].phase.Up?
    ensures s.scopes[k].index < |s.table| && (CancelledIn(s.table[s.scopes[k].index].state) <==> Tenancy(s.scopes[k]) in s.struck)
  {
    hide Owners, Links;
    ScopeFacts(s, k);
  }

  // A walk, however deep it is allowed to go, meets a handle twice only if one on its way is aliased.
  lemma NoCycle(s0: State, steps: seq<Step>, s: State, k: nat, depth: nat, d: nat, e: nat)
    requires Init(s0) && Run(s0, steps, s) && k < |s.scopes| && s.scopes[k].phase.Up?
    requires d < e < |Chain(s.table, s.scopes[k].raw, depth)|
    ensures forall l :: 0 <= l < |s.scopes| ==> LinkOk(s.table, s.scopes, l)
    ensures Chain(s.table, s.scopes[k].raw, depth)[d] == Chain(s.table, s.scopes[k].raw, depth)[e] ==> AliasedPath(s, k, depth)
  {
    hide Run, Init;
    Reachable(s0, steps, s);
    hide Words, Ages, Flags;
    UpResolves(s, k);
    WalkIsEnclosing(s, k, depth);
    var ks := Enclosing(s, k, depth);
    hide Enclosing, Chain, AliasedPath;
    if !AliasedPath(s, k, depth) {
      UpResolves(s, ks[d]);
      UpResolves(s, ks[e]);
      OnlyHolder(s.scopes, s.free, ks[d]);
    }
  }

  // No token any scope hands out is the absent token.
  lemma NoTokenIsNone(s0: State, steps: seq<Step>, s: State, j: nat)
    requires Init(s0) && Run(s0, steps, s) && Issued(s, j)
    ensures s.scopes[j].raw != NO_TOKEN && IndexOf(s.scopes[j].raw) == s.scopes[j].index < CANCEL_SLOTS
  {
    hide Run, Init, Owners, Flags;
    Reachable(s0, steps, s);
    ScopeFacts(s, j);
    HandleParts(s.scopes[j].age, s.scopes[j].index);
  }

  // ---- when generations wrap ----------------------------------------------------------------------------------------

  lemma {:induction false} RunSnoc(s0: State, a: seq<Step>, s: State, st: Step)
    requires Run(s0, a, s) && Enabled(s, st)
    ensures Run(s0, a + [st], Apply(s, st))
    decreases |a|
  {
    hide Enabled, Apply;
    if a == [] {
      assert [st][1..] == [];
      assert Run(Apply(s, st), [], Apply(s, st));
    } else {
      RunSnoc(Apply(s0, a[0]), a[1..], s, st);
      assert (a + [st])[1..] == a[1..] + [st];
    }
  }

  predicate Sized(s: State) { |s.table| == |s.age| == CANCEL_SLOTS }

  function ParentHandle(s: State, want: Link): (raw: nat)
    requires want.Under? ==> want.j < |s.scopes|
  {
    if want.Under? && Resolves(s.table, s.scopes[want.j].raw) then s.scopes[want.j].raw else NO_TOKEN
  }

  // A scope is constructed in slot i, its parent still up.
  lemma Constructs(s0: State, a: seq<Step>, s: State, i: nat, want: Link) returns (a': seq<Step>, s': State)
    requires Run(s0, a, s) && Sized(s) && i in s.free && i < CANCEL_SLOTS
    requires want.Under? ==> Issued(s, want.j)
    ensures Run(s0, a', s') && Sized(s') && s'.free == s.free - {i} && s'.age == s.age && |s'.scopes| == |s.scopes| + 1
    ensures s'.scopes[..|s.scopes|] == s.scopes && s'.table == s.table[i := s.table[i].(parent := ParentHandle(s, want))]
    ensures var c := s'.scopes[|s.scopes|];
            c.index == i && c.age == s.age[i] && c.phase.Up? && c.raw == GenOf(s.table[i].state) * 0x1_0000 + i
  {
    hide Run;
    var k := |s.scopes|;
    var s1 := Apply(s, Acquire(i, want));
    RunSnoc(s0, a, s, Acquire(i, want));
    assert s1.scopes[k] == Scope(i, s.age[i], Taken, want, Root, NO_TOKEN);
    var s2 := Apply(s1, Resolve(k));
    RunSnoc(s0, a + [Acquire(i, want)], s1, Resolve(k));
    assert s2.scopes[k].phase.Resolved? && s2.table == s.table;
    var s3 := Apply(s2, MakeLink(k));
    RunSnoc(s0, a + [Acquire(i, want)] + [Resolve(k)], s2, MakeLink(k));
    assert s3.scopes[k].phase.Linked? && s3.table[i].state == s.table[i].state;
    s' := Apply(s3, Publish(k));
    RunSnoc(s0, a + [Acquire(i, want)] + [Resolve(k)] + [MakeLink(k)], s3, Publish(k));
    a' := a + [Acquire(i, want)] + [Resolve(k)] + [MakeLink(k)] + [Publish(k)];
  }

  // The scope k is destroyed.
  lemma Destroys(s0: State, a: seq<Step>, s: State, k: nat) returns (a': seq<Step>, s': State)
    requires Run(s0, a, s) && Sized(s) && Is(s, k, Up)
    ensures Run(s0, a', s') && Sized(s') && |s'.scopes| == |s.scopes|
    ensures forall l :: 0 <= l < |s.scopes| && l != k ==> s'.scopes[l] == s.scopes[l]
    ensures var i := s.scopes[k].index;
            && s'.free == s.free + {i} && s'.age == s.age[i := s.age[i] + 1]
            && s'.table == s.table[i := Slot(Word(s.table[i].state / 0x1_0000_0000 + 1, false), NO_TOKEN)]
  {
    hide Run, Word;
    var s1 := Apply(s, Bump(k));
    RunSnoc(s0, a, s, Bump(k));
    var s2 := Apply(s1, Unlink(k));
    RunSnoc(s0, a + [Bump(k)], s1, Unlink(k));
    s' := Apply(s2, Release(k));
    RunSnoc(s0, a + [Bump(k)] + [Unlink(k)], s2, Release(k));
    a' := a + [Bump(k)] + [Unlink(k)] + [Release(k)];
  }

  // n root scopes come and go in slot i.
  lemma {:induction false} Recycles(s0: State, a: seq<Step>, s: State, i: nat, n: nat) returns (a': seq<Step>, s': State)
    requires Run(s0, a, s) && Sized(s) && i in s.free && i < CANCEL_SLOTS && s.table[i] == Slot(Word(s.age[i], false), NO_TOKEN)
    ensures Run(s0, a', s') && Sized(s') && s'.free == s.free && s'.age == s.age[i := s.age[i] + n]
    ensures s'.table == s.table[i := Slot(Word(s.age[i] + n, false), NO_TOKEN)]
    ensures |s.scopes| <= |s'.scopes| && s'.scopes[..|s.scopes|] == s.scopes
    decreases n
  {
    hide Run, Word;
    if n == 0 {
      a', s' := a, s;
    } else {
      var a1, s1 := Constructs(s0, a, s, i, Root);
      var a2, s2 := Destroys(s0, a1, s1, |s.scopes|);
      NextWord(s.age[i], false);
      a', s' := Recycles(s0, a2, s2, i, n - 1);
      assert s2.scopes[..|s.scopes|] == s.scopes;
      assert s'.scopes[..|s.scopes|] == s'.scopes[..|s2.scopes|][..|s.scopes|];
    }
  }

  // A parent in slot 0, a child in slot 1; the parent goes, slot 0 is reused until its generation
  // comes round, and the next scope there is put under the child.  Each is then the other's parent.
  lemma CycleAfterWrap() returns (s0: State, a: seq<Step>, s: State, child: nat)
    ensures Init(s0) && Run(s0, a, s) && child < |s.scopes| && s.scopes[child].phase.Up?
    ensures var c := Chain(s.table, s.scopes[child].raw, 3); |c| == 3 && c[0] == c[2]
  {
    s0 := Fresh();
    hide Run, Apply, Enabled, Chain;
    var a2, s2 := TwoScopes(s0);
    a, s, child := WrapsRound(s0, a2, s2);
  }

  function Below(n: nat): (r: set<nat>)
    ensures forall i: nat :: i in r <==> i < n
  {
    if n == 0 then {} else Below(n - 1) + {n - 1}
  }

  function Fresh(): (s: State)
    ensures Init(s)
  {
    State(seq(CANCEL_SLOTS, i => Slot(0, NO_TOKEN)), Below(CANCEL_SLOTS), [], map[], seq(CANCEL_SLOTS, i => 0), {})
  }

  lemma TwoScopes(s0: State) returns (a: seq<Step>, s: State)
    requires Init(s0)
    ensures Run(s0, a, s) && Sized(s) && 0 in s.free && s.age[0] == 1 && s.table[0] == Slot(Word(1, false), NO_TOKEN)
    ensures |s.scopes| == 2 && s.scopes[1].phase.Up? && s.scopes[1].index == 1 && s.scopes[1].age == s.age[1] == 0
    ensures s.scopes[1].raw == 1 && s.table[1].parent == 0 && s.table[1].state == 0
  {
    assert Run(s0, [], s0);
    hide Run, Apply, Enabled;
    var a1, s1 := Constructs(s0, [], s0, 0, Root);
    assert GenOf(0) == 0;
    var a2, s2 := Constructs(s0, a1, s1, 1, Under(0));
    assert s2.scopes[0] == s2.scopes[..1][0] == s1.scopes[0];
    a, s := Destroys(s0, a2, s2, 0);
  }

  lemma WrapsRound(s0: State, a: seq<Step>, s: State) returns (a': seq<Step>, s': State, child: nat)
    requires Run(s0, a, s) && Sized(s) && 0 in s.free && s.age[0] == 1 && s.table[0] == Slot(Word(1, false), NO_TOKEN)
    requires |s.scopes| == 2 && s.scopes[1].phase.Up? && s.scopes[1].index == 1 && s.scopes[1].age == s.age[1] == 0
    requires s.scopes[1].raw == 1 && s.table[1].parent == 0 && s.table[1].state == 0
    ensures Run(s0, a', s') && child < |s'.scopes| && s'.scopes[child].phase.Up?
    ensures var c := Chain(s'.table, s'.scopes[child].raw, 3); |c| == 3 && c[0] == c[2]
  {
    hide Run, Apply, Enabled, Chain;
    var a1, s1 := Recycles(s0, a, s, 0, 65535);
    assert s1.scopes[1] == s1.scopes[..2][1] == s.scopes[1];
    a', s' := Constructs(s0, a1, s1, 0, Under(1));
    assert s'.scopes[1] == s'.scopes[..|s1.scopes|][1] == s.scopes[1];
    child := 1;
    WordParts(65536, false);
    TwoCycle(s'.table);
  }

  lemma TwoCycle(table: seq<Slot>)
    requires |table| == CANCEL_SLOTS && table[1] == Slot(0, 0) && GenOf(table[0].state) == 0 && table[0].parent == 1
    ensures Chain(table, 1, 3) == [1, 0, 1]
  {
    assert Resolves(table, 1) && Resolves(table, 0);
    assert Chain(table, 1, 1) == [1] + Chain(table, 0, 0) == [1];
    assert Chain(table, 0, 2) == [0] + Chain(table, 1, 1);
  }
}
