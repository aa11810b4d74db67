/** Which way the evaluation points: a sign, what a captured man is worth, and which way the tables face. */
module EvalLaws {
  import opened Types
  import opened Rules
  import opened MoveSets
  import opened Evaluator

  // ---------------------------------------------------------------- sums

  lemma SumUpdate(xs: seq<int>, i: nat, v: int)
    requires i < |xs|
    ensures Sum(xs[i := v]) == Sum(xs) - xs[i] + v
  {
    hide Sum;
    var a, b := xs[..i], xs[i + 1..];
    assert xs == a + [xs[i]] + b && xs[i := v] == a + [v] + b;
    SumConcat(a + [xs[i]], b);
    SumConcat(a, [xs[i]]);
    SumConcat(a + [v], b);
    SumConcat(a, [v]);
    SumOne(xs[i]);
    SumOne(v);
  }

  lemma {:induction false} SumAdd(xs: seq<int>, ys: seq<int>, zs: seq<int>)
    requires |xs| == |ys| == |zs| && forall i :: 0 <= i < |xs| ==> zs[i] == xs[i] + ys[i]
    ensures Sum(zs) == Sum(xs) + Sum(ys)
  {
    if xs != [] {
      SumAdd(xs[..|xs| - 1], ys[..|ys| - 1], zs[..|zs| - 1]);
    }
  }

  lemma SumOfAll(xs: seq<int>, hi: int)
    requires forall i :: 0 <= i < |xs| ==> 0 <= xs[i] <= hi
    ensures 0 <= Sum(xs) && (hi == 0 ==> Sum(xs) == 0)
  {
    SumBounds(xs, 0, hi);
  }

  /** All but one element are nothing. */
  lemma SumOnly(xs: seq<int>, k: nat)
    requires k < |xs| && forall i :: 0 <= i < |xs| && i != k ==> xs[i] == 0
    ensures Sum(xs) == xs[k]
  {
    SumWithOneBig(xs, k, xs[k], 0);
  }

  lemma {:induction false} SumNonNegative(xs: seq<int>)
    requires forall i :: 0 <= i < |xs| ==> 0 <= xs[i]
    ensures 0 <= Sum(xs)
  {
    if xs != [] {
      SumNonNegative(xs[..|xs| - 1]);
    }
  }

  lemma SumAtLeastTwo(xs: seq<int>, i: nat, j: nat)
    requires i < |xs| && j < |xs| && i != j && forall x :: 0 <= x < |xs| ==> 0 <= xs[x]
    ensures Sum(xs) >= xs[i] + xs[j]
  {
    hide Sum;
    SumUpdate(xs, i, 0);
    SumUpdate(xs[i := 0], j, 0);
    SumNonNegative(xs[i := 0][j := 0]);
  }

  // ---------------------------------------------------------------- one side's share

  /** What a side's own men contribute. */
  ghost function Share(p: Position, c: Color): int {
    Sum(Materials(p.squares, c)) + Sum(Psts(p.squares, c)) + Sum(Pawns(p.squares, c))
    + KingSafety(p.squares, c) + MoveCount(p, c) * MOBILITY_WEIGHT + Pair(p.squares, c)
  }

  lemma EvaluationIsDifference(p: Position)
    ensures Evaluation(p) == Share(p, p.side) - Share(p, Opposite(p.side))
  {
    hide Sum, KingSafety, MoveCount, Pair, Materials, Psts, Pawns;
  }

  /** The material balance as the side to move sees it. */
  ghost function MaterialLead(p: Position): int {
    if p.side == White then Breakdown(p).material else -Breakdown(p).material
  }

  /** Taking an enemy man off the board raises the mover's material by that man's value. */
  lemma TakingRaisesMaterial(p: Position, s: Square)
    requires p.squares[s].Man? && p.squares[s].color == Opposite(p.side)
    ensures MaterialLead(p.(squares := p.squares[s := Empty])) == MaterialLead(p) + PieceValue(p.squares[s].kind)
    ensures PieceValue(p.squares[s].kind) > 0
  {
    hide Sum, KingSafety, MoveCount, Pair, Psts, Pawns;
    var b, c := p.squares, p.squares[s := Empty];
    var own, other := p.side, Opposite(p.side);
    assert Materials(c, own) == Materials(b, own);
    assert Materials(c, other) == Materials(b, other)[s := 0];
    SumUpdate(Materials(b, other), s, 0);
  }

  // ---------------------------------------------------------------- a lone king

  /** The only man of `c` is a king on `e`. */
  predicate Alone(b: Placement, c: Color, e: Square) {
    forall x: Square :: Own(b, x, c) <==> x == e && b[x] == Man(c, King)
  }

  lemma AloneHolds(b: Placement, c: Color, e: Square)
    requires Alone(b, c, e) && b[e] == Man(c, King)
    ensures Sum(Materials(b, c)) == 20000 && Sum(Psts(b, c)) <= 50
    ensures Sum(Pawns(b, c)) == 0 && Pair(b, c) == 0 && KingSafety(b, c) <= 30
  {
    hide Sum, KingSafety, PstTable;
    forall x: Square
      ensures x != e ==> Materials(b, c)[x] == 0 && Psts(b, c)[x] == 0
      ensures Pawns(b, c)[x] == 0 && Bishops(b, c)[x] == 0
    {
    }
    SumOnly(Materials(b, c), e);
    SumOnly(Psts(b, c), e);
    SumOfAll(Pawns(b, c), 0);
    SumOfAll(Bishops(b, c), 0);
    PstBounded(b, c, e);
    SafetyBound(b, c);
  }

  lemma PstBounded(b: Placement, c: Color, s: Square)
    ensures -50 <= PstAt(b, c, s) <= 50
  {
    hide PstTable;
    if Own(b, s, c) {
      var i := if c == Black then Flip(s) else s;
      TableBound(b[s].kind, Rank(i), File(i));
    }
  }

  /** The number of a king's move: one of the nine steps, or a castling move. */
  function KingCode(e: Square, m: Move): int {
    if m.flags.kingside then 9 else if m.flags.queenside then 10
    else 3 * (Rank(m.to) - Rank(e) + 1) + (File(m.to) - File(e) + 1)
  }

  lemma KingCodes(p: Position, e: Square, c: Color, m: Move)
    requires p.squares[e] == Man(c, King) && PieceMove(p, e, c, m)
    ensures 0 <= KingCode(e, m) < 11
    ensures !m.flags.kingside && !m.flags.queenside ==> m.from == e && Plain(m) && KingStep(e, m.to)
    ensures m.flags.kingside || m.flags.queenside ==> CastleMove(p, m, c)
  {
    hide AttackedBy;
  }

  lemma KingCodesDiffer(p: Position, e: Square, c: Color, m: Move, o: Move)
    requires p.squares[e] == Man(c, King) && PieceMove(p, e, c, m) && PieceMove(p, e, c, o)
    requires KingCode(e, m) == KingCode(e, o)
    ensures m == o
  {
    hide AttackedBy, PieceMove;
    KingCodes(p, e, c, m);
    KingCodes(p, e, c, o);
    if !m.flags.kingside && !m.flags.queenside {
      SameStep(e, m.to, o.to);
    }
  }

  lemma SameStep(e: Square, x: Square, y: Square)
    requires KingStep(e, x) && KingStep(e, y)
    requires 3 * (Rank(x) - Rank(e) + 1) + (File(x) - File(e) + 1) == 3 * (Rank(y) - Rank(e) + 1) + (File(y) - File(e) + 1)
    ensures x == y
  {
  }

  lemma AloneMoves(p: Position, c: Color, e: Square)
    requires Alone(p.squares, c, e) && p.squares[e] == Man(c, King)
    ensures MoveCount(p, c) <= 11
  {
    hide Sum, PieceMove, KingCode;
    forall x: Square | x != e
      ensures MoveCounts(p, c)[x] == 0
    {
      NobodyMoves(p, c, x);
    }
    SumOnly(MoveCounts(p, c), e);
    var ms := PieceMoveSet(p, e, c);
    forall m | m in ms
      ensures 0 <= KingCode(e, m) < 11
    {
      KingCodes(p, e, c, m);
    }
    forall m, o | m in ms && o in ms && KingCode(e, m) == KingCode(e, o)
      ensures m == o
    {
      KingCodesDiffer(p, e, c, m, o);
    }
    BoundedSize(ms, m => KingCode(e, m), 11);
  }

  lemma NobodyMoves(p: Position, c: Color, x: Square)
    requires !Own(p.squares, x, c)
    ensures |PieceMoveSet(p, x, c)| == 0
  {
    hide AttackedBy;
    assert PieceMoveSet(p, x, c) == {};
  }

  /** A king and a piece are worth at least this much to their side, whatever else it has. */
  lemma ArmyHolds(p: Position, c: Color, k: Square, s: Square)
    requires p.squares[k] == Man(c, King) && Own(p.squares, s, c)
    requires p.squares[s].kind != Pawn && p.squares[s].kind != King
    ensures Share(p, c) >= 20000 - 50 + 320 - 50 - 25
  {
    hide Sum, KingSafety, MoveCounts, Pair, Doubled, Supported, Opposed, PstTable;
    var b := p.squares;
    var xs, ys, zs := Materials(b, c), Psts(b, c), Pawns(b, c);
    var two := seq(64, i requires 0 <= i < 64 => xs[i] + ys[i]);
    var all := seq(64, i requires 0 <= i < 64 => two[i] + zs[i]);
    SumAdd(xs, ys, two);
    SumAdd(two, zs, all);
    forall x: Square
      ensures all[x] >= 0
      ensures x == k ==> all[x] >= 20000 - 50
      ensures x == s ==> all[x] >= 320 - 50
    {
      ManIsWorth(b, c, x);
    }
    SumAtLeastTwo(all, k, s);
    SafetyBound(b, c);
    SumNonNegative(MoveCounts(p, c));
    PairIsNonNegative(b, c);
  }

  lemma ManIsWorth(b: Placement, c: Color, x: Square)
    ensures var v := MaterialAt(b, c, x) + PstAt(b, c, x) + PawnAt(b, c, x);
      && v >= 0
      && (b[x] == Man(c, King) ==> v >= 20000 - 50)
      && (Own(b, x, c) && b[x].kind != Pawn && b[x].kind != King ==> v >= 320 - 50)
  {
    hide PstBonus, Doubled, Supported, Opposed;
    PstBounded(b, c, x);
  }

  lemma PairIsNonNegative(b: Placement, c: Color)
    ensures Pair(b, c) >= 0
  {
    hide Sum;
  }

  /**
   Against a lone king any army with a piece is ahead: the evaluation is above zero when it is
   to move, and below zero when the lone king is.
   */
  lemma LoneKingIsBehind(p: Position, c: Color, k: Square, s: Square, e: Square)
    requires p.squares[k] == Man(c, King) && Own(p.squares, s, c)
    requires p.squares[s].kind != Pawn && p.squares[s].kind != King
    requires Alone(p.squares, Opposite(c), e) && p.squares[e] == Man(Opposite(c), King)
    ensures p.side == c ==> Evaluation(p) > 0
    ensures p.side != c ==> Evaluation(p) < 0
  {
    hide Evaluation, Alone, Sum, KingSafety, MoveCount, Pair, Materials, Psts, Pawns;
    EvaluationIsDifference(p);
    ArmyHolds(p, c, k, s);
    AloneHolds(p.squares, Opposite(c), e);
    AloneMoves(p, Opposite(c), e);
  }

  /** King and queen against king. */
  lemma QueenAgainstKing(p: Position, c: Color, k: Square, q: Square, e: Square)
    requires forall x: Square ::
      p.squares[x] == (if x == k then Man(c, King) else if x == q then Man(c, Queen) else if x == e then Man(Opposite(c), King) else Empty)
    requires k != q && k != e && q != e
    ensures p.side == c ==> Evaluation(p) > 0
    ensures p.side != c ==> Evaluation(p) < 0
  {
    hide Evaluation;
    LoneKingIsBehind(p, c, k, q, e);
  }

  // ---------------------------------------------------------------- the tables are upside down

  /**
   Against the comment that pawns are rewarded for advancing: a pawn's bonus is greatest on the
   rank it starts from, on every file and for both colours, and nowhere else as great.
   */
  lemma PawnsAreBestAtHome(c: Color, s: Square)
    ensures PstBonus(Pawn, c, s) <= 50
    ensures PstBonus(Pawn, c, s) == 50 <==> RankFrom(c, s) == 1
  {
    hide Flip;
    FlipTwice(s);
    PawnTable(Rank(if c == Black then Flip(s) else s), File(s));
  }

  lemma PawnTable(r: int, f: int)
    requires OnBoard(r, f)
    ensures PST_PAWN[r][f] <= 50 && (PST_PAWN[r][f] == 50 <==> r == 1)
  {
  }

  /** A castled king is better off in the opponent's corner than in its own. */
  lemma KingsAreBestAbroad()
    ensures PstBonus(King, White, G1) == PstBonus(King, Black, G8) == -40
    ensures PstBonus(King, White, G8) == PstBonus(King, Black, G1) == 30
  {
  }

  // ---------------------------------------------------------------- which way the small terms point

  /** Without an enemy pawn no pawn is worth less. */
  lemma FewerOpponentsHelp(b: Placement, c: Color, s: Square, t: Square)
    requires b[t] == Man(Opposite(c), Pawn)
    ensures PawnAt(b[t := Empty], c, s) >= PawnAt(b, c, s)
  {
    var d := b[t := Empty];
    forall x: Square
      ensures d[x] == Man(c, Pawn) <==> b[x] == Man(c, Pawn)
      ensures d[x] == Man(Opposite(c), Pawn) ==> b[x] == Man(Opposite(c), Pawn)
    {
    }
    assert Opposed(d, c, s) ==> Opposed(b, c, s);
    assert Doubled(d, c, s) <==> Doubled(b, c, s);
    assert Supported(d, c, s) <==> Supported(b, c, s);
  }

  /** A new fellow pawn beside never costs a pawn anything; one on its own file never brings it anything. */
  lemma FellowPawns(b: Placement, c: Color, s: Square, t: Square)
    requires b[t] == Empty && t != s
    ensures File(t) != File(s) ==> PawnAt(b[t := Man(c, Pawn)], c, s) >= PawnAt(b, c, s)
    ensures File(t) == File(s) ==> PawnAt(b[t := Man(c, Pawn)], c, s) <= PawnAt(b, c, s)
  {
    var d := b[t := Man(c, Pawn)];
    forall x: Square
      ensures d[x] == Man(c, Pawn) <==> b[x] == Man(c, Pawn) || x == t
      ensures d[x] == Man(Opposite(c), Pawn) <==> b[x] == Man(Opposite(c), Pawn)
    {
    }
    assert d[s] == b[s];
    assert Opposed(d, c, s) <==> Opposed(b, c, s);
    if File(t) != File(s) {
      assert Doubled(d, c, s) <==> Doubled(b, c, s);
      assert Supported(b, c, s) ==> Supported(d, c, s);
    } else {
      assert Doubled(b, c, s) ==> Doubled(d, c, s);
      assert Supported(d, c, s) <==> Supported(b, c, s);
    }
  }

  lemma {:induction false} KingStaysFound(b: Placement, d: Placement, c: Color, i: nat)
    requires i <= 64 && forall x: Square :: b[x] == Man(c, King) <==> d[x] == Man(c, King)
    ensures FindKing(b, c, i) == FindKing(d, c, i)
    decreases 64 - i
  {
    if i < 64 {
      KingStaysFound(b, d, c, i + 1);
    }
  }

  /** A new pawn of its own never makes a king less safe. */
  lemma PawnsShelterTheKing(b: Placement, c: Color, t: Square)
    requires b[t] == Empty
    ensures KingSafety(b[t := Man(c, Pawn)], c) >= KingSafety(b, c)
  {
    hide FindKing;
    var d := b[t := Man(c, Pawn)];
    KingStaysFound(b, d, c, 0);
    var k := FindKing(b, c);
    forall r, f
      ensures PawnOn(b, c, r, f) ==> PawnOn(d, c, r, f)
    {
    }
    if k < 64 && PawnOnFile(b, c, File(k)) {
      var r :| PawnOn(b, c, r, File(k));
      assert PawnOn(d, c, r, File(k));
    }
  }

  /** A passed pawn is worth more the further it has come, and every free move is worth something. */
  lemma BonusesRise(r: int)
    requires 1 <= r < 6
    ensures 0 < PassedPawnBonus(r) < PassedPawnBonus(r + 1)
    ensures MOBILITY_WEIGHT > 0 && BISHOP_PAIR_BONUS > 0
  {
  }
}
