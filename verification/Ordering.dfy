/** Move ordering: the table move, then captures by victim and attacker, then the rest. */
module Ordering {
  import opened Types
  import opened Rules
  import opened BoardState
  import opened Evaluator

  /** Most valuable victim first, least valuable attacker first. */
  function MvvLva(victim: Kind, attacker: Kind): int {
    PieceValue(victim) * 10 - PieceValue(attacker)
  }

  predicate HasTableMove(tt: Move) {
    tt.from != tt.to || tt.flags != PLAIN
  }

  function OrderScore(b: Placement, m: Move, tt: Move): int {
    if HasTableMove(tt) && m.from == tt.from && m.to == tt.to && m.promo == tt.promo then 30000
    else if b[m.to].Man? then 10000 + if b[m.from].Man? then MvvLva(b[m.to].kind, b[m.from].kind) else PieceValue(b[m.to].kind) * 10
    else if m.flags.enPassant then 10000 + MvvLva(Pawn, Pawn)
    else 0
  }

  ghost predicate Ordered(b: Placement, ms: seq<Move>, tt: Move) {
    forall i, j :: 0 <= i < j < |ms| ==> OrderScore(b, ms[i], tt) >= OrderScore(b, ms[j], tt)
  }

  lemma InsertedInOrder(b: Placement, ms: seq<Move>, m: Move, tt: Move, k: nat)
    requires k <= |ms| && Ordered(b, ms, tt)
    requires forall i :: 0 <= i < k ==> OrderScore(b, ms[i], tt) >= OrderScore(b, m, tt)
    requires k < |ms| ==> OrderScore(b, ms[k], tt) <= OrderScore(b, m, tt)
    ensures Ordered(b, ms[..k] + [m] + ms[k..], tt)
  {
    hide OrderScore;
    var r := ms[..k] + [m] + ms[k..];
    forall i, j | 0 <= i < j < |r|
      ensures OrderScore(b, r[i], tt) >= OrderScore(b, r[j], tt)
    {
      assert r[i] == if i < k then ms[i] else if i == k then m else ms[i - 1];
      assert r[j] == if j < k then ms[j] else if j == k then m else ms[j - 1];
    }
  }

  /** One insertion of the sort: before the first move of lower score. */
  method Insert(ms: seq<Move>, m: Move, b: Board, tt: Move) returns (r: seq<Move>)
    requires b.Valid() && Ordered(b.squares[..], ms, tt)
    ensures Ordered(b.squares[..], r, tt)
    ensures multiset(r) == multiset(ms) + multiset{m}
  {
    hide OrderScore, Ordered;
    ghost var sq := b.squares[..];
    var score := OrderScore(b.squares[..], m, tt);
    var k := 0;
    while k < |ms| && OrderScore(b.squares[..], ms[k], tt) >= score
      invariant 0 <= k <= |ms|
      invariant forall i :: 0 <= i < k ==> OrderScore(sq, ms[i], tt) >= score
    {
      k := k + 1;
    }
    InsertedInOrder(sq, ms, m, tt, k);
    r := ms[..k] + [m] + ms[k..];
    assert ms == ms[..k] + ms[k..];
  }

  /** The moves sorted by score, highest first; a permutation of what was given. */
  method OrderMoves(ms: seq<Move>, b: Board, tt: Move) returns (r: seq<Move>)
    requires b.Valid()
    ensures Ordered(b.squares[..], r, tt)
    ensures multiset(r) == multiset(ms)
    ensures |r| == |ms| && forall m: Move :: m in r <==> m in ms
  {
    r := [];
    for i := 0 to |ms|
      invariant Ordered(b.squares[..], r, tt)
      invariant multiset(r) == multiset(ms[..i])
    {
      assert ms[..i + 1] == ms[..i] + [ms[i]];
      r := Insert(r, ms[i], b, tt);
    }
    assert ms[..|ms|] == ms;
    SameMembers(r, ms);
  }

  lemma SameMembers(r: seq<Move>, ms: seq<Move>)
    requires multiset(r) == multiset(ms)
    ensures |r| == |ms| && forall m: Move :: m in r <==> m in ms
  {
    assert |r| == |multiset(r)| && |ms| == |multiset(ms)|;
    forall m: Move
      ensures m in r <==> m in ms
    {
      assert m in r <==> m in multiset(r);
      assert m in ms <==> m in multiset(ms);
    }
  }

  // ---------------------------------------------------------------- what the order comes to

  predicate IsTableMove(m: Move, tt: Move) {
    HasTableMove(tt) && m.from == tt.from && m.to == tt.to && m.promo == tt.promo
  }

  predicate TakesMan(b: Placement, m: Move) {
    b[m.from].Man? && b[m.to].Man? && b[m.to].kind != King
  }

  predicate TakesNothing(b: Placement, m: Move) {
    b[m.to] == Empty && !m.flags.enPassant
  }

  /** The table's move goes before every other. */
  lemma TableMoveFirst(b: Placement, m: Move, o: Move, tt: Move)
    requires IsTableMove(m, tt) && !IsTableMove(o, tt)
    requires b[o.to].Man? ==> b[o.from].Man? && b[o.to].kind != King
    ensures OrderScore(b, m, tt) > OrderScore(b, o, tt)
  {
  }

  /**
   Captures are meant to go before quiet moves.  They do, except those of the king: its own
   value outweighs every man it could take, and its captures are tried last of all.
   */
  lemma CaptureBeforeQuietIff(b: Placement, m: Move, o: Move, tt: Move)
    requires !IsTableMove(m, tt) && !IsTableMove(o, tt) && TakesMan(b, m) && TakesNothing(b, o)
    ensures OrderScore(b, m, tt) > OrderScore(b, o, tt) <==> b[m.from].kind != King
    ensures OrderScore(b, m, tt) != OrderScore(b, o, tt)
  {
  }

  /**
   The more valuable victim is meant to decide between two captures whatever takes it.  It does,
   except when the king takes it and does not take the other, and when a bishop is set against
   a knight and taken by something a pawn's worth dearer, or more.
   */
  lemma VictimDecidesIff(v: Kind, a: Kind, v': Kind, a': Kind)
    requires v != King && PieceValue(v) > PieceValue(v')
    ensures MvvLva(v, a) > MvvLva(v', a') <==>
      !(a == King && a' != King) && !(v == Bishop && v' == Knight && PieceValue(a) - PieceValue(a') >= PieceValue(Pawn))
  {
  }

  /** Of two captures of one man the cheaper attacker's goes first. */
  lemma CheaperAttackerFirst(v: Kind, a: Kind, a': Kind)
    ensures MvvLva(v, a) > MvvLva(v, a') <==> PieceValue(a) < PieceValue(a')
  {
  }
}
