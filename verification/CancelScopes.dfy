/**
 Cancellation scopes: slots that pack a generation and a cancelled flag into one 64-bit word, 32-bit
 handles that pack a slot index and the low 16 bits of a generation, and the two bounded walks up the
 parent links.  A walk is stated over one snapshot of the table.
 */
module CancelScopes {

  const NO_TOKEN: nat := 0xFFFF_FFFF
  const CANCEL_SLOTS: nat := 65535
  const MAX_SCOPE_DEPTH: nat := 8

  datatype Slot = Slot(state: nat, parent: nat)

  // ---- the two words ------------------------------------------------------------------------------

  function GenOf(state: nat): (g: nat) { (state / 0x1_0000_0000) % 0x1_0000 }
  predicate CancelledIn(state: nat) { state % 2 == 1 }
  function IndexOf(raw: nat): (i: nat) { raw % 0x1_0000 }

  // A state word: full 32-bit generation, flag.
  function Word(gen: nat, cancelled: bool): (st: nat) { gen % 0x1_0000_0000 * 0x1_0000_0000 + if cancelled then 1 else 0 }

  function Handle(gen: nat, index: nat): (raw: nat) { gen % 0x1_0000 * 0x1_0000 + index }

  lemma WordParts(gen: nat, c: bool)
    ensures GenOf(Word(gen, c)) == gen % 0x1_0000 && CancelledIn(Word(gen, c)) == c && Word(gen, c) < 0x1_0000_0000_0000_0000
    ensures Word(gen, c) / 0x1_0000_0000 == gen % 0x1_0000_0000
  {
    HighHalf(gen % 0x1_0000_0000, if c then 1 else 0);
    GenBits(gen);
  }

  lemma HighHalf(g: nat, b: nat)
    requires g < 0x1_0000_0000 && b < 2
    ensures var w := g * 0x1_0000_0000 + b; w / 0x1_0000_0000 == g && w % 2 == b && w < 0x1_0000_0000_0000_0000
  {
    var w := g * 0x1_0000_0000 + b;
    assert w % 2 == b by { Parity(0x8000_0000 * g, b, w); }
    assert w / 0x1_0000_0000 == g by { Quotient(g, b); }
  }

  lemma Parity(k: nat, b: nat, w: nat)
    requires b < 2 && w == 2 * k + b
    ensures w % 2 == b
  {
  }

  lemma Quotient(g: nat, b: nat)
    requires b < 0x1_0000_0000
    ensures (g * 0x1_0000_0000 + b) / 0x1_0000_0000 == g
  {
  }

  // Cutting a generation to 32 bits and then to 16 is cutting it to 16.
  lemma GenBits(gen: nat)
    ensures gen % 0x1_0000_0000 % 0x1_0000 == gen % 0x1_0000
  {
    var q, g := gen / 0x1_0000_0000, gen % 0x1_0000_0000;
    LowBits(0x1_0000 * q, g);
    assert gen == 0x1_0000 * (0x1_0000 * q) + g;
  }

  lemma LowBits(k: nat, g: nat)
    ensures (0x1_0000 * k + g) % 0x1_0000 == g % 0x1_0000
  {
    var h, r := g / 0x1_0000, g % 0x1_0000;
    assert 0x1_0000 * k + g == 0x1_0000 * (k + h) + r;
  }

  // fetch_or of the flag
  function Flagged(state: nat): (st: nat)
    ensures GenOf(st) == GenOf(state) && CancelledIn(st)
  {
    if CancelledIn(state) then state
    else
      assert (state + 1) / 0x1_0000_0000 == state / 0x1_0000_0000;
      state + 1
  }

  lemma FlaggedWord(gen: nat, c: bool)
    ensures Flagged(Word(gen, c)) == Word(gen, true)
  {
    WordParts(gen, c);
  }

  // No handle of a real slot is the absent handle.
  lemma HandleParts(gen: nat, index: nat)
    requires index < CANCEL_SLOTS
    ensures Handle(gen, index) != NO_TOKEN && IndexOf(Handle(gen, index)) == index && Handle(gen, index) / 0x1_0000 == gen % 0x1_0000
  {
  }

  // ---- resolving and walking --------------------------------------------------------------------------

  predicate Resolves(table: seq<Slot>, raw: nat) {
    && IndexOf(raw) < CANCEL_SLOTS && IndexOf(raw) < |table|
    && GenOf(table[IndexOf(raw)].state) == raw / 0x1_0000
  }

  // The handles met from raw upwards that still name their scope, at most `depth` of them.
  function Chain(table: seq<Slot>, raw: nat, depth: nat): (c: seq<nat>)
    ensures |c| <= depth
    ensures forall d :: 0 <= d < |c| ==> c[d] != NO_TOKEN && Resolves(table, c[d])
    ensures forall d :: 0 <= d < |c| - 1 ==> Resolves(table, c[d]) && c[d + 1] == table[IndexOf(c[d])].parent
    ensures c != [] ==> c[0] == raw
    decreases depth
  {
    if depth == 0 || raw == NO_TOKEN || !Resolves(table, raw) then []
    else [raw] + Chain(table, table[IndexOf(raw)].parent, depth - 1)
  }

  // Some scope on the chain has its flag set.
  predicate FlagOn(table: seq<Slot>, c: seq<nat>)
  {
    exists d :: 0 <= d < |c| && Resolves(table, c[d]) && CancelledIn(table[IndexOf(c[d])].state)
  }

  predicate IsCancelled(table: seq<Slot>, raw: nat) { FlagOn(table, Chain(table, raw, MAX_SCOPE_DEPTH)) }

  // One step of the walk.
  lemma FlagOnStep(table: seq<Slot>, raw: nat, depth: nat)
    ensures FlagOn(table, Chain(table, raw, depth)) ==
            (&& depth > 0 && raw != NO_TOKEN && Resolves(table, raw)
             && (CancelledIn(table[IndexOf(raw)].state) || FlagOn(table, Chain(table, table[IndexOf(raw)].parent, depth - 1))))
  {
    if depth > 0 && raw != NO_TOKEN && Resolves(table, raw) {
      var rest := Chain(table, table[IndexOf(raw)].parent, depth - 1);
      var c := [raw] + rest;
      assert c[0] == raw && c[1..] == rest;
      if FlagOn(table, rest) {
        var d :| 0 <= d < |rest| && Resolves(table, rest[d]) && CancelledIn(table[IndexOf(rest[d])].state);
        assert c[d + 1] == rest[d];
      }
    }
  }

  method Cancelled(table: seq<Slot>, token: nat) returns (b: bool)
    requires |table| == CANCEL_SLOTS
    ensures b == IsCancelled(table, token)
  {
    hide FlagOn, Chain;
    var raw := token;
    var depth := 0;
    while depth < MAX_SCOPE_DEPTH
      invariant depth <= MAX_SCOPE_DEPTH
      invariant IsCancelled(table, token) == FlagOn(table, Chain(table, raw, MAX_SCOPE_DEPTH - depth))
    {
      FlagOnStep(table, raw, MAX_SCOPE_DEPTH - depth);
      if raw == NO_TOKEN { return false; }
      var index := raw % 0x1_0000;
      if index >= CANCEL_SLOTS { return false; }
      var st := table[index].state;
      if GenOf(st) != raw / 0x1_0000 { return false; }
      if CancelledIn(st) { return true; }
      raw := table[index].parent;
      depth := depth + 1;
    }
    FlagOnStep(table, raw, 0);
    return false;
  }

  // `ancestor` is among the first MAX_SCOPE_DEPTH handles of the chain, the last of which may be stale.
  ghost predicate Within(table: seq<Slot>, raw: nat, ancestor: nat, depth: nat)
    decreases depth
  {
    && depth > 0 && raw != NO_TOKEN && ancestor != NO_TOKEN
    && (raw == ancestor || (Resolves(table, raw) && Within(table, table[IndexOf(raw)].parent, ancestor, depth - 1)))
  }

  method IsWithin(table: seq<Slot>, token: nat, ancestor: nat) returns (b: bool)
    requires |table| == CANCEL_SLOTS
    ensures b == Within(table, token, ancestor, MAX_SCOPE_DEPTH)
    ensures Resolves(table, ancestor) ==> b == (ancestor != NO_TOKEN && ancestor in Chain(table, token, MAX_SCOPE_DEPTH))
  {
    hide Chain;
    if Resolves(table, ancestor) { WithinChain(table, token, ancestor, MAX_SCOPE_DEPTH); }
    if ancestor == NO_TOKEN { return false; }
    var raw := token;
    var depth := 0;
    while depth < MAX_SCOPE_DEPTH
      invariant depth <= MAX_SCOPE_DEPTH
      invariant Within(table, token, ancestor, MAX_SCOPE_DEPTH) == Within(table, raw, ancestor, MAX_SCOPE_DEPTH - depth)
    {
      if raw == NO_TOKEN { return false; }
      if raw == ancestor { return true; }
      var index := raw % 0x1_0000;
      if index >= CANCEL_SLOTS { return false; }
      if GenOf(table[index].state) != raw / 0x1_0000 { return false; }
      raw := table[index].parent;
      depth := depth + 1;
    }
    return false;
  }

  lemma {:induction false} WithinChain(table: seq<Slot>, raw: nat, ancestor: nat, depth: nat)
    requires Resolves(table, ancestor)
    ensures Within(table, raw, ancestor, depth) <==> ancestor != NO_TOKEN && ancestor in Chain(table, raw, depth)
    decreases depth
  {
    if depth > 0 && raw != NO_TOKEN && Resolves(table, raw) {
      WithinChain(table, table[IndexOf(raw)].parent, ancestor, depth - 1);
    }
  }

  // ---- cancelling -----------------------------------------------------------------------------------------

  function WithFlag(table: seq<Slot>, i: nat): (r: seq<Slot>)
    requires i < |table|
  {
    table[i := table[i].(state := Flagged(table[i].state))]
  }

  lemma {:induction false} FlagKeepsChain(table: seq<Slot>, i: nat, raw: nat, depth: nat)
    requires i < |table|
    ensures Chain(WithFlag(table, i), raw, depth) == Chain(table, raw, depth)
    decreases depth
  {
    var table' := WithFlag(table, i);
    assert Resolves(table', raw) == Resolves(table, raw);
    if depth > 0 && raw != NO_TOKEN && Resolves(table, raw) {
      FlagKeepsChain(table, i, table[IndexOf(raw)].parent, depth - 1);
    }
  }

  // Two handles that resolve to one slot are the same handle.
  lemma ResolveUnique(table: seq<Slot>, a: nat, b: nat)
    requires Resolves(table, a) && Resolves(table, b) && IndexOf(a) == IndexOf(b)
    ensures a == b
  {
  }

  // Cancelling a live scope cancels exactly the scopes within it, over and above those cancelled
  // already.
  lemma CancelReachesNested(table: seq<Slot>, scope: nat, token: nat)
    requires |table| == CANCEL_SLOTS && scope != NO_TOKEN && Resolves(table, scope)
    ensures IsCancelled(WithFlag(table, IndexOf(scope)), token)
       <==> IsCancelled(table, token) || Within(table, token, scope, MAX_SCOPE_DEPTH)
  {
    var i := IndexOf(scope);
    var table' := WithFlag(table, i);
    var c := Chain(table, token, MAX_SCOPE_DEPTH);
    FlagKeepsChain(table, i, token, MAX_SCOPE_DEPTH);
    WithinChain(table, token, scope, MAX_SCOPE_DEPTH);
    forall d | 0 <= d < |c|
      ensures CancelledIn(table'[IndexOf(c[d])].state) <==> CancelledIn(table[IndexOf(c[d])].state) || c[d] == scope
    {
      if IndexOf(c[d]) == i { ResolveUnique(table, c[d], scope); }
    }
    if scope in c {
      var d :| 0 <= d < |c| && c[d] == scope;
      assert CancelledIn(table'[IndexOf(c[d])].state);
    }
  }
}
