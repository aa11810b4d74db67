/** Static evaluation: what the six terms mean, that colours are treated alike, and how large scores get. */
module Evaluator {
  import opened Types
  import opened Rules
  import opened Zobrist
  import opened BoardState
  import opened MoveSets
  import opened MoveGen
  import opened Mirror

  // ---------------------------------------------------------------- constants

  function PieceValue(k: Kind): int {
    match k
    case Pawn => 100
    case Knight => 320
    case Bishop => 330
    case Rook => 500
    case Queen => 900
    case King => 20000
  }

  const PST_PAWN: seq<seq<int>> := [
    [0, 0, 0, 0, 0, 0, 0, 0], [50, 50, 50, 50, 50, 50, 50, 50],
    [10, 10, 20, 30, 30, 20, 10, 10], [5, 5, 10, 25, 25, 10, 5, 5],
    [0, 0, 0, 20, 20, 0, 0, 0], [5, -5, -10, 0, 0, -10, -5, 5],
    [5, 10, 10, -20, -20, 10, 10, 5], [0, 0, 0, 0, 0, 0, 0, 0]]

  const PST_KNIGHT: seq<seq<int>> := [
    [-50, -40, -30, -30, -30, -30, -40, -50], [-40, -20, 0, 0, 0, 0, -20, -40],
    [-30, 0, 10, 15, 15, 10, 0, -30], [-30, 5, 15, 20, 20, 15, 5, -30],
    [-30, 0, 15, 20, 20, 15, 0, -30], [-30, 5, 10, 15, 15, 10, 5, -30],
    [-40, -20, 0, 5, 5, 0, -20, -40], [-50, -40, -30, -30, -30, -30, -40, -50]]

  const PST_BISHOP: seq<seq<int>> := [
    [-20, -10, -10, -10, -10, -10, -10, -20], [-10, 0, 0, 0, 0, 0, 0, -10],
    [-10, 0, 5, 10, 10, 5, 0, -10], [-10, 5, 5, 10, 10, 5, 5, -10],
    [-10, 0, 10, 10, 10, 10, 0, -10], [-10, 10, 10, 10, 10, 10, 10, -10],
    [-10, 5, 0, 0, 0, 0, 5, -10], [-20, -10, -10, -10, -10, -10, -10, -20]]

  const PST_ROOK: seq<seq<int>> := [
    [0, 0, 0, 0, 0, 0, 0, 0], [5, 10, 10, 10, 10, 10, 10, 5],
    [-5, 0, 0, 0, 0, 0, 0, -5], [-5, 0, 0, 0, 0, 0, 0, -5],
    [-5, 0, 0, 0, 0, 0, 0, -5], [-5, 0, 0, 0, 0, 0, 0, -5],
    [-5, 0, 0, 0, 0, 0, 0, -5], [0, 0, 0, 5, 5, 0, 0, 0]]

  const PST_QUEEN: seq<seq<int>> := [
    [-20, -10, -10, -5, -5, -10, -10, -20], [-10, 0, 0, 0, 0, 0, 0, -10],
    [-10, 0, 5, 5, 5, 5, 0, -10], [-5, 0, 5, 5, 5, 5, 0, -5],
    [0, 0, 5, 5, 5, 5, 0, -5], [-10, 5, 5, 5, 5, 5, 0, -10],
    [-10, 0, 5, 0, 0, 0, 0, -10], [-20, -10, -10, -5, -5, -10, -10, -20]]

  const PST_KING: seq<seq<int>> := [
    [-30, -40, -40, -50, -50, -40, -40, -30], [-30, -40, -40, -50, -50, -40, -40, -30],
    [-30, -40, -40, -50, -50, -40, -40, -30], [-30, -40, -40, -50, -50, -40, -40, -30],
    [-20, -30, -30, -40, -40, -30, -30, -20], [-10, -20, -20, -20, -20, -20, -20, -10],
    [20, 20, 0, 0, 0, 0, 20, 20], [20, 30, 10, 0, 0, 10, 30, 20]]

  predicate TableShape(t: seq<seq<int>>) {
    |t| == 8 && forall r :: 0 <= r < 8 ==> |t[r]| == 8
  }

  /** The piece-square table, rank by rank from White's first rank. */
  function PstTable(k: Kind): (t: seq<seq<int>>)
    ensures TableShape(t)
  {
    match k
    case Pawn => PST_PAWN
    case Knight => PST_KNIGHT
    case Bishop => PST_BISHOP
    case Rook => PST_ROOK
    case Queen => PST_QUEEN
    case King => PST_KING
  }

  /** White reads the table as it stands, Black turned round. */
  function PstBonus(k: Kind, c: Color, s: Square): int {
    var i := if c == Black then Flip(s) else s;
    PstTable(k)[Rank(i)][File(i)]
  }

  const PAWN_SHIELD_BONUS := 10
  const KING_OPEN_FILE_PENALTY := -25
  const DOUBLED_PAWN_PENALTY := -15
  const ISOLATED_PAWN_PENALTY := -20
  const MOBILITY_WEIGHT := 4
  const BISHOP_PAIR_BONUS := 30

  function PassedPawnBonus(r: int): int {
    if r == 1 then 10 else if r == 2 then 15 else if r == 3 then 25 else if r == 4 then 40
    else if r == 5 then 60 else if r == 6 then 90 else 0
  }

  // ---------------------------------------------------------------- meaning of the terms

  function MaterialAt(b: Placement, c: Color, s: Square): int {
    if Own(b, s, c) then PieceValue(b[s].kind) else 0
  }

  function PstAt(b: Placement, c: Color, s: Square): int {
    if Own(b, s, c) then PstBonus(b[s].kind, c, s) else 0
  }

  function BishopAt(b: Placement, c: Color, s: Square): int {
    if b[s] == Man(c, Bishop) then 1 else 0
  }

  /** A fellow pawn stands on the same file. */
  ghost predicate Doubled(b: Placement, c: Color, s: Square) {
    exists t: Square :: t != s && b[t] == Man(c, Pawn) && File(t) == File(s)
  }

  /** A fellow pawn stands on a neighbouring file. */
  ghost predicate Supported(b: Placement, c: Color, s: Square) {
    exists t: Square :: b[t] == Man(c, Pawn) && Abs(File(t) - File(s)) == 1
  }

  predicate Ahead(c: Color, s: Square, t: Square) {
    if c == White then Rank(t) > Rank(s) else Rank(t) < Rank(s)
  }

  /** An enemy pawn ahead on this or a neighbouring file. */
  ghost predicate Opposed(b: Placement, c: Color, s: Square) {
    exists t: Square :: b[t] == Man(Opposite(c), Pawn) && Abs(File(t) - File(s)) <= 1 && Ahead(c, s, t)
  }

  function RankFrom(c: Color, s: Square): int {
    if c == White then Rank(s) else 7 - Rank(s)
  }

  ghost function PawnAt(b: Placement, c: Color, s: Square): int {
    if b[s] != Man(c, Pawn) then 0 else
      (if Doubled(b, c, s) then DOUBLED_PAWN_PENALTY else 0)
      + (if !Supported(b, c, s) then ISOLATED_PAWN_PENALTY else 0)
      + (if !Opposed(b, c, s) then PassedPawnBonus(RankFrom(c, s)) else 0)
  }

  function Materials(b: Placement, c: Color): (xs: seq<int>)
    ensures |xs| == 64 && forall s: Square :: xs[s] == MaterialAt(b, c, s)
  {
    seq(64, s requires 0 <= s < 64 => MaterialAt(b, c, s))
  }

  function Psts(b: Placement, c: Color): (xs: seq<int>)
    ensures |xs| == 64 && forall s: Square :: xs[s] == PstAt(b, c, s)
  {
    seq(64, s requires 0 <= s < 64 => PstAt(b, c, s))
  }

  function Bishops(b: Placement, c: Color): (xs: seq<int>)
    ensures |xs| == 64 && forall s: Square :: xs[s] == BishopAt(b, c, s)
  {
    seq(64, s requires 0 <= s < 64 => BishopAt(b, c, s))
  }

  ghost function Pawns(b: Placement, c: Color): (xs: seq<int>)
    ensures |xs| == 64 && forall s: Square :: xs[s] == PawnAt(b, c, s)
  {
    seq(64, s requires 0 <= s < 64 => PawnAt(b, c, s))
  }

  predicate PawnOn(b: Placement, c: Color, r: int, f: int) {
    OnBoard(r, f) && b[At(r, f)] == Man(c, Pawn)
  }

  function ShieldAt(b: Placement, c: Color, r: int, f: int): int {
    if PawnOn(b, c, r, f) then PAWN_SHIELD_BONUS else 0
  }

  predicate AtHome(c: Color, k: Square) {
    if c == White then Rank(k) <= 1 else Rank(k) >= 6
  }

  /** Pawns on the three squares before a king at home. */
  function Shield(b: Placement, c: Color, k: Square): int {
    var r, f := Rank(k) + Forward(c), File(k);
    if AtHome(c, k) then ShieldAt(b, c, r, f - 1) + ShieldAt(b, c, r, f) + ShieldAt(b, c, r, f + 1) else 0
  }

  ghost predicate PawnOnFile(b: Placement, c: Color, f: int) {
    exists r: int :: PawnOn(b, c, r, f)
  }

  ghost function KingSafety(b: Placement, c: Color): int {
    var k := FindKing(b, c);
    if k == 64 then 0 else
      Shield(b, c, k) + if PawnOnFile(b, c, File(k)) then 0 else KING_OPEN_FILE_PENALTY
  }

  function Pair(b: Placement, c: Color): int {
    if Sum(Bishops(b, c)) >= 2 then BISHOP_PAIR_BONUS else 0
  }

  datatype EvalBreakdown = EvalBreakdown(
    material: int, pst: int, kingSafety: int, pawnStructure: int, mobility: int, bishopPair: int, total: int)

  ghost function Breakdown(p: Position): EvalBreakdown {
    var b := p.squares;
    var material := Sum(Materials(b, White)) - Sum(Materials(b, Black));
    var pst := Sum(Psts(b, White)) - Sum(Psts(b, Black));
    var safety := KingSafety(b, White) - KingSafety(b, Black);
    var pawns := Sum(Pawns(b, White)) - Sum(Pawns(b, Black));
    var mobility := (MoveCount(p, White) - MoveCount(p, Black)) * MOBILITY_WEIGHT;
    var pair := Pair(b, White) - Pair(b, Black);
    EvalBreakdown(material, pst, safety, pawns, mobility, pair, material + pst + safety + pawns + mobility + pair)
  }

  /** The score for the side to move. */
  ghost function Evaluation(p: Position): int {
    if p.side == White then Breakdown(p).total else -Breakdown(p).total
  }

  // ---------------------------------------------------------------- colours are treated alike

  lemma MaterialFlipped(b: Placement, c: Color)
    ensures Sum(Materials(FlipBoard(b), Opposite(c))) == Sum(Materials(b, c))
  {
    hide Sum, Flip;
    var xs, ys := Materials(b, c), Materials(FlipBoard(b), Opposite(c));
    forall s: Square
      ensures ys[s] == xs[Flip(s)]
    {
    }
    SumFlipped(xs, ys);
  }

  lemma PstFlipped(b: Placement, c: Color)
    ensures Sum(Psts(FlipBoard(b), Opposite(c))) == Sum(Psts(b, c))
  {
    hide Sum, Flip, PstTable;
    var xs, ys := Psts(b, c), Psts(FlipBoard(b), Opposite(c));
    forall s: Square
      ensures ys[s] == xs[Flip(s)]
    {
      FlipTwice(s);
    }
    SumFlipped(xs, ys);
  }

  lemma BishopsFlipped(b: Placement, c: Color)
    ensures Sum(Bishops(FlipBoard(b), Opposite(c))) == Sum(Bishops(b, c))
  {
    hide Sum, Flip;
    var xs, ys := Bishops(b, c), Bishops(FlipBoard(b), Opposite(c));
    forall s: Square
      ensures ys[s] == xs[Flip(s)]
    {
    }
    SumFlipped(xs, ys);
  }

  lemma PawnMirrored(b: Placement, c: Color, t: Square)
    requires b[t] == Man(c, Pawn)
    ensures FlipBoard(b)[Flip(t)] == Man(Opposite(c), Pawn)
    ensures Rank(Flip(t)) == 7 - Rank(t) && File(Flip(t)) == File(t)
  {
    PieceFlipped(b, t);
    FlipTwice(t);
  }

  /** A structural relation found before turning the board is found after it. */
  lemma DoubledKept(b: Placement, c: Color, s: Square)
    requires Doubled(b, c, s)
    ensures Doubled(FlipBoard(b), Opposite(c), Flip(s))
  {
    hide Flip, FlipBoard;
    var t: Square :| t != s && b[t] == Man(c, Pawn) && File(t) == File(s);
    PawnMirrored(b, c, t);
    FlipTwice(s);
    FlipTwice(t);
  }

  lemma SupportKept(b: Placement, c: Color, s: Square)
    requires Supported(b, c, s)
    ensures Supported(FlipBoard(b), Opposite(c), Flip(s))
  {
    hide Flip, FlipBoard;
    var t: Square :| b[t] == Man(c, Pawn) && Abs(File(t) - File(s)) == 1;
    PawnMirrored(b, c, t);
    FlipTwice(s);
  }

  lemma OppositionKept(b: Placement, c: Color, s: Square)
    requires Opposed(b, c, s)
    ensures Opposed(FlipBoard(b), Opposite(c), Flip(s))
  {
    hide Flip, FlipBoard;
    var t: Square :| b[t] == Man(Opposite(c), Pawn) && Abs(File(t) - File(s)) <= 1 && Ahead(c, s, t);
    PawnMirrored(b, Opposite(c), t);
    FlipTwice(s);
    assert Ahead(Opposite(c), Flip(s), Flip(t));
  }

  lemma PawnRelationsKept(b: Placement, c: Color, s: Square)
    ensures Doubled(b, c, s) ==> Doubled(FlipBoard(b), Opposite(c), Flip(s))
    ensures Supported(b, c, s) ==> Supported(FlipBoard(b), Opposite(c), Flip(s))
    ensures Opposed(b, c, s) ==> Opposed(FlipBoard(b), Opposite(c), Flip(s))
  {
    hide *;
    if Doubled(b, c, s) { DoubledKept(b, c, s); }
    if Supported(b, c, s) { SupportKept(b, c, s); }
    if Opposed(b, c, s) { OppositionKept(b, c, s); }
  }

  lemma PawnFlipped(b: Placement, c: Color, s: Square)
    ensures PawnAt(FlipBoard(b), Opposite(c), Flip(s)) == PawnAt(b, c, s)
  {
    hide Flip, Doubled, Supported, Opposed, FlipBoard;
    PawnRelationsKept(b, c, s);
    PawnRelationsKept(FlipBoard(b), Opposite(c), Flip(s));
    FlipBoardTwice(b);
    FlipTwice(s);
    PieceFlipped(b, s);
  }

  lemma PawnsFlipped(b: Placement, c: Color)
    ensures Sum(Pawns(FlipBoard(b), Opposite(c))) == Sum(Pawns(b, c))
  {
    hide Sum, Flip, FlipBoard, PawnAt;
    var xs, ys := Pawns(b, c), Pawns(FlipBoard(b), Opposite(c));
    forall s: Square
      ensures ys[s] == xs[Flip(s)]
    {
      PawnFlipped(b, c, Flip(s));
      FlipTwice(s);
    }
    SumFlipped(xs, ys);
  }

  lemma PawnOnFlipped(b: Placement, c: Color, r: int, f: int)
    ensures PawnOn(FlipBoard(b), Opposite(c), 7 - r, f) <==> PawnOn(b, c, r, f)
  {
    hide FlipBoard, Flip;
    if OnBoard(r, f) {
      PieceFlipped(b, At(r, f));
      FlipAt(r, f);
    }
  }

  lemma ShieldFlipped(b: Placement, c: Color, k: Square)
    ensures Shield(FlipBoard(b), Opposite(c), Flip(k)) == Shield(b, c, k)
  {
    hide PawnOn, Flip;
    FlipTwice(k);
    var r, f := Rank(k) + Forward(c), File(k);
    PawnOnFlipped(b, c, r, f - 1);
    PawnOnFlipped(b, c, r, f);
    PawnOnFlipped(b, c, r, f + 1);
  }

  lemma PawnOnFileFlipped(b: Placement, c: Color, f: int)
    ensures PawnOnFile(FlipBoard(b), Opposite(c), f) <==> PawnOnFile(b, c, f)
  {
    hide PawnOn;
    if PawnOnFile(b, c, f) {
      var r: int :| PawnOn(b, c, r, f);
      PawnOnFlipped(b, c, r, f);
    }
    if PawnOnFile(FlipBoard(b), Opposite(c), f) {
      var r: int :| PawnOn(FlipBoard(b), Opposite(c), r, f);
      PawnOnFlipped(b, c, 7 - r, f);
      assert 7 - (7 - r) == r;
    }
  }

  lemma KingImage(b: Placement, c: Color, s: Square)
    ensures FlipBoard(b)[Flip(s)] == Man(Opposite(c), King) <==> b[s] == Man(c, King)
  {
    PieceFlipped(b, s);
  }

  lemma KingFlipped(b: Placement, c: Color)
    requires AtMostOneKing(b, c)
    ensures FindKing(FlipBoard(b), Opposite(c)) == (var k := FindKing(b, c); if k == 64 then 64 else Flip(k))
  {
    hide Flip, FlipBoard, FindKing, AtMostOneKing;
    var r := FlipBoard(b);
    var k, j := FindKing(b, c), FindKing(r, Opposite(c));
    if j < 64 {
      FlipTwice(j);
      KingImage(b, c, Flip(j));
    }
    if k < 64 {
      KingImage(b, c, k);
    }
    if k < 64 && j < 64 {
      OnlyKing(b, c, k, Flip(j));
    }
  }

  lemma OnlyKing(b: Placement, c: Color, i: Square, j: Square)
    requires AtMostOneKing(b, c) && b[i] == Man(c, King) && b[j] == Man(c, King)
    ensures i == j
  {
  }

  lemma KingSafetyFlipped(b: Placement, c: Color)
    requires AtMostOneKing(b, c)
    ensures KingSafety(FlipBoard(b), Opposite(c)) == KingSafety(b, c)
  {
    hide AtMostOneKing, Shield, PawnOnFile, Flip, FlipBoard, FindKing;
    KingFlipped(b, c);
    var k := FindKing(b, c);
    if k < 64 {
      ShieldFlipped(b, c, k);
      FlipTwice(k);
      PawnOnFileFlipped(b, c, File(k));
    }
  }

  /**
   For every board with at most one king a side, evaluation does not change when the colours
   are exchanged and the board is turned round; each term changes sign seen from White.
   */
  lemma EvaluationIsColorBlind(p: Position)
    requires AtMostOneKing(p.squares, White) && AtMostOneKing(p.squares, Black)
    ensures Breakdown(FlipPosition(p)).total == -Breakdown(p).total
    ensures Evaluation(FlipPosition(p)) == Evaluation(p)
  {
    hide AtMostOneKing, KingSafety, Pair, Sum, MoveCount, Materials, Psts, Pawns, FlipBoard;
    var b := p.squares;
    MaterialFlipped(b, White);
    MaterialFlipped(b, Black);
    PstFlipped(b, White);
    PstFlipped(b, Black);
    KingSafetyFlipped(b, White);
    KingSafetyFlipped(b, Black);
    PawnsFlipped(b, White);
    PawnsFlipped(b, Black);
    MoveCountFlipped(p, White);
    MoveCountFlipped(p, Black);
    PairFlipped(b, White);
    PairFlipped(b, Black);
  }

  lemma PairFlipped(b: Placement, c: Color)
    ensures Pair(FlipBoard(b), Opposite(c)) == Pair(b, c)
  {
    hide Sum;
    BishopsFlipped(b, c);
  }

  // ---------------------------------------------------------------- how large a score gets

  const EVAL_BOUND := 800000

  lemma MaterialBound(b: Placement, c: Color)
    requires OneKing(b, c)
    ensures 20000 <= Sum(Materials(b, c)) <= 20000 + 900 * 63
  {
    hide Sum;
    var k: Square :| SoleKing(b, c, k);
    forall s: Square | s != k
      ensures 0 <= Materials(b, c)[s] <= 900
    {
      assert b[s] != Man(c, King);
    }
    assert b[k] == Man(c, King);
    SumWithOneBig(Materials(b, c), k, 20000, 900);
  }

  lemma TableBound(k: Kind, r: int, f: int)
    requires OnBoard(r, f)
    ensures -50 <= PstTable(k)[r][f] <= 50
  {
    match k
    case Pawn =>
    case Knight =>
    case Bishop =>
    case Rook =>
    case Queen =>
    case King =>
  }

  lemma PstBound(b: Placement, c: Color)
    ensures -3200 <= Sum(Psts(b, c)) <= 3200
  {
    hide Sum, PstTable;
    forall s: Square
      ensures -50 <= Psts(b, c)[s] <= 50
    {
      if Own(b, s, c) {
        var i := if c == Black then Flip(s) else s;
        TableBound(b[s].kind, Rank(i), File(i));
      }
    }
    SumBounds(Psts(b, c), -50, 50);
  }

  lemma PawnsBound(b: Placement, c: Color)
    ensures -35 * 64 <= Sum(Pawns(b, c)) <= 90 * 64
  {
    hide Sum;
    forall s: Square
      ensures -35 <= Pawns(b, c)[s] <= 90
    {
    }
    SumBounds(Pawns(b, c), -35, 90);
  }

  function PromoIndex(o: Option<Kind>): (i: int)
    ensures 0 <= i < 7
  {
    match o
    case None => 0
    case Some(k) => 1 + KindIndex(k)
  }

  /** A number below 450 for every move of the man on `s`: its target and promotion, or its castling. */
  function MoveCode(m: Move): (i: int)
    ensures 0 <= i < 450
  {
    if m.flags.kingside then 448 else if m.flags.queenside then 449 else 7 * m.to + PromoIndex(m.promo)
  }

  lemma KindIndexInjective(j: Kind, k: Kind)
    requires KindIndex(j) == KindIndex(k)
    ensures j == k
  {
    match j
    case _ =>
  }

  lemma PromoIndexInjective(a: Option<Kind>, b: Option<Kind>)
    requires PromoIndex(a) == PromoIndex(b)
    ensures a == b
  {
    if a.Some? && b.Some? {
      KindIndexInjective(a.value, b.value);
    }
  }

  lemma CodesDiffer(p: Position, s: Square, c: Color, m: Move, o: Move)
    requires PieceMove(p, s, c, m) && PieceMove(p, s, c, o) && MoveCode(m) == MoveCode(o)
    ensures m == o
  {
    hide PieceMove, PromoIndex;
    if m.flags.kingside || m.flags.queenside {
      CastleFlagged(p, s, c, m);
      CastleFlagged(p, s, c, o);
    } else {
      assert m.to == o.to && PromoIndex(m.promo) == PromoIndex(o.promo);
      PromoIndexInjective(m.promo, o.promo);
      SameManSameMove(p, s, c, m, o);
    }
  }

  lemma CastleFlagged(p: Position, s: Square, c: Color, m: Move)
    requires PieceMove(p, s, c, m) && (m.flags.kingside || m.flags.queenside)
    ensures m == if c == White then (if m.flags.kingside then Move(E1, G1, KINGSIDE_CASTLE, None) else Move(E1, C1, QUEENSIDE_CASTLE, None))
      else (if m.flags.kingside then Move(E8, G8, KINGSIDE_CASTLE, None) else Move(E8, C8, QUEENSIDE_CASTLE, None))
  {
    hide AttackedBy, LineClear, PawnMove, KnightStep, KingStep, SliderLine;
    if p.squares[s].Man? && p.squares[s].kind == Pawn {
      PawnFlags(p, c, m);
    }
  }

  lemma SameManSameMove(p: Position, s: Square, c: Color, m: Move, o: Move)
    requires PieceMove(p, s, c, m) && PieceMove(p, s, c, o)
    requires !m.flags.kingside && !m.flags.queenside && !o.flags.kingside && !o.flags.queenside
    requires m.to == o.to && m.promo == o.promo
    ensures m == o
  {
    hide PawnMove, CastleMove, LineClear, KnightStep, KingStep, SliderLine;
    if p.squares[s].kind == Pawn {
      SamePawnMove(p, c, m, o);
    } else if p.squares[s].kind == King {
      CastlingIsFlagged(p, c, m);
      CastlingIsFlagged(p, c, o);
    }
  }

  lemma CastlingIsFlagged(p: Position, c: Color, m: Move)
    ensures CastleMove(p, m, c) ==> m.flags.kingside || m.flags.queenside
  {
    hide AttackedBy;
  }

  /** Where a pawn goes and what it becomes say which of its moves it makes. */
  lemma SamePawnMove(p: Position, c: Color, m: Move, o: Move)
    requires PawnMove(p, m, c) && PawnMove(p, o, c)
    requires m.from == o.from && m.to == o.to && m.promo == o.promo
    ensures m == o
  {
    PawnFlags(p, c, m);
    PawnFlags(p, c, o);
  }

  lemma PawnFlags(p: Position, c: Color, m: Move)
    requires PawnMove(p, m, c)
    ensures m.flags ==
      if m.to == m.from + 16 * Forward(c) then DOUBLE_PAWN_PUSH
      else (if File(m.to) != File(m.from) && !Enemy(p.squares, m.to, c) then EN_PASSANT else PLAIN).(promotion := m.promo.Some?)
  {
  }

  /** One man has fewer than 450 moves. */
  lemma MoveCountBound(p: Position, c: Color)
    ensures 0 <= MoveCount(p, c) <= 450 * 64
  {
    hide Sum;
    forall s: Square
      ensures 0 <= MoveCounts(p, c)[s] <= 450
    {
      var ms := PieceMoveSet(p, s, c);
      forall m, o | m in ms && o in ms && MoveCode(m) == MoveCode(o)
        ensures m == o
      {
        CodesDiffer(p, s, c, m, o);
      }
      BoundedSize(ms, MoveCode, 450);
    }
    SumBounds(MoveCounts(p, c), 0, 450);
  }

  /** With one king a side every evaluation stays far below the mate scores. */
  lemma EvaluationBound(p: Position)
    requires OneKing(p.squares, White) && OneKing(p.squares, Black)
    ensures -EVAL_BOUND < Evaluation(p) < EVAL_BOUND
  {
    hide Sum, OneKing, Shield, PawnOnFile, FindKing, MoveCount, Materials, Psts, Pawns;
    var b := p.squares;
    MaterialBound(b, White);
    MaterialBound(b, Black);
    PstBound(b, White);
    PstBound(b, Black);
    PawnsBound(b, White);
    PawnsBound(b, Black);
    MoveCountBound(p, White);
    MoveCountBound(p, Black);
    SafetyBound(b, White);
    SafetyBound(b, Black);
  }

  lemma SafetyBound(b: Placement, c: Color)
    ensures -25 <= KingSafety(b, c) <= 30
  {
    hide PawnOnFile, FindKing;
  }

  // ---------------------------------------------------------------- the algorithms

  method EvaluateKingSafety(b: Board, c: Color, k: Square) returns (score: int)
    requires b.Valid()
    ensures score == Shield(b.squares[..], c, k)
      + if PawnOnFile(b.squares[..], c, File(k)) then 0 else KING_OPEN_FILE_PENALTY
  {
    hide FindKing;
    ghost var sq := b.squares[..];
    score := 0;
    var kf, r := File(k), Rank(k) + Forward(c);
    if AtHome(c, k) && 0 <= r <= 7 {
      var lo := if kf - 1 < 0 then 0 else kf - 1;
      var hi := if kf + 1 > 7 then 7 else kf + 1;
      var f := lo;
      while f <= hi
        invariant lo <= f <= hi + 1
        invariant score == (if f > kf - 1 then ShieldAt(sq, c, r, kf - 1) else 0)
          + (if f > kf then ShieldAt(sq, c, r, kf) else 0) + (if f > kf + 1 then ShieldAt(sq, c, r, kf + 1) else 0)
      {
        assert b.squares[At(r, f)] == sq[At(r, f)];
        if b.squares[At(r, f)] == Man(c, Pawn) {
          score := score + PAWN_SHIELD_BONUS;
        }
        f := f + 1;
      }
    }
    assert score == Shield(sq, c, k);
    var onFile := HasPawnOnFile(b, c, kf);
    if !onFile {
      score := score + KING_OPEN_FILE_PENALTY;
    }
  }

  method HasPawnOnFile(b: Board, c: Color, f: int) returns (found: bool)
    requires b.Valid() && 0 <= f < 8
    ensures found <==> PawnOnFile(b.squares[..], c, f)
  {
    ghost var sq := b.squares[..];
    for r := 0 to 8
      invariant forall q: int :: q < r ==> !PawnOn(sq, c, q, f)
    {
      assert b.squares[At(r, f)] == sq[At(r, f)];
      if b.squares[At(r, f)] == Man(c, Pawn) {
        assert PawnOn(sq, c, r, f);
        return true;
      }
    }
    assert forall q: int :: !PawnOn(sq, c, q, f);
    return false;
  }

  /** The pawns of `c` on file `f` among the first `n` squares. */
  function FilePawns(b: Placement, c: Color, f: int, n: nat): (ts: set<Square>)
    requires n <= 64
    ensures forall t: Square :: t in ts <==> t < n && b[t] == Man(c, Pawn) && File(t) == f
  {
    if n == 0 then {} else
      FilePawns(b, c, f, n - 1) + (if b[n - 1] == Man(c, Pawn) && File(n - 1) == f then {n - 1} else {})
  }

  lemma FilePawnsStep(b: Placement, c: Color, f: int, n: nat)
    requires n < 64
    ensures |FilePawns(b, c, f, n + 1)|
      == |FilePawns(b, c, f, n)| + if b[n] == Man(c, Pawn) && File(n) == f then 1 else 0
  {
  }

  /** The counting pass. */
  method CountPawns(b: Board, c: Color) returns (counts: array<int>)
    requires b.Valid()
    ensures fresh(counts) && counts.Length == 8
    ensures forall f :: 0 <= f < 8 ==> counts[f] == |FilePawns(b.squares[..], c, f, 64)|
  {
    ghost var sq := b.squares[..];
    counts := new int[8](_ => 0);
    for s := 0 to 64
      invariant b.squares[..] == sq
      invariant forall f :: 0 <= f < 8 ==> counts[f] == |FilePawns(sq, c, f, s)|
    {
      forall f | 0 <= f < 8
        ensures |FilePawns(sq, c, f, s + 1)| == |FilePawns(sq, c, f, s)| + if sq[s] == Man(c, Pawn) && File(s) == f then 1 else 0
      {
        FilePawnsStep(sq, c, f, s);
      }
      assert b.squares[s] == sq[s];
      if b.squares[s] == Man(c, Pawn) {
        counts[File(s)] := counts[File(s)] + 1;
      }
    }
  }

  lemma SomePawnOnFile(b: Placement, c: Color, f: int)
    ensures |FilePawns(b, c, f, 64)| > 0 <==> exists t: Square :: b[t] == Man(c, Pawn) && File(t) == f
  {
    hide FilePawns;
    var own := FilePawns(b, c, f, 64);
    if own != {} {
      var t: Square :| t in own;
    }
    if t: Square :| b[t] == Man(c, Pawn) && File(t) == f {
      assert t in own;
    }
  }

  lemma DoubledByCount(b: Placement, c: Color, s: Square)
    requires b[s] == Man(c, Pawn)
    ensures Doubled(b, c, s) <==> |FilePawns(b, c, File(s), 64)| > 1
  {
    hide FilePawns, File;
    var own := FilePawns(b, c, File(s), 64);
    var rest := own - {s};
    assert |own| == |rest| + 1;
    if rest != {} {
      var t: Square :| t in rest;
    }
    if Doubled(b, c, s) {
      var t: Square :| t != s && b[t] == Man(c, Pawn) && File(t) == File(s);
      assert t in rest;
    }
  }

  lemma CountsTell(b: Placement, c: Color, s: Square)
    requires b[s] == Man(c, Pawn)
    ensures Doubled(b, c, s) <==> |FilePawns(b, c, File(s), 64)| > 1
    ensures Supported(b, c, s) <==>
      || (File(s) > 0 && |FilePawns(b, c, File(s) - 1, 64)| > 0)
      || (File(s) < 7 && |FilePawns(b, c, File(s) + 1, 64)| > 0)
  {
    hide FilePawns, Doubled;
    DoubledByCount(b, c, s);
    SomePawnOnFile(b, c, File(s) - 1);
    SomePawnOnFile(b, c, File(s) + 1);
  }

  /** Scanning one file ahead of a pawn for an enemy pawn. */
  method EnemyPawnAhead(b: Board, c: Color, s: Square, f: int) returns (found: bool)
    requires b.Valid() && 0 <= f < 8
    ensures found <==> exists t: Square :: b.squares[t] == Man(Opposite(c), Pawn) && File(t) == f && Ahead(c, s, t)
  {
    var r := Rank(s) + Forward(c);
    while 0 <= r <= 7
      invariant -1 <= r <= 8
      invariant forall t: Square ::
        (File(t) == f && Ahead(c, s, t) && (if c == White then Rank(t) < r else Rank(t) > r)
         ==> b.squares[t] != Man(Opposite(c), Pawn))
      decreases if c == White then 8 - r else r + 1
    {
      if b.squares[At(r, f)] == Man(Opposite(c), Pawn) {
        assert File(At(r, f)) == f && Rank(At(r, f)) == r;
        return true;
      }
      assert forall t: Square :: File(t) == f && Rank(t) == r ==> t == At(r, f);
      r := r + Forward(c);
    }
    return false;
  }

  method IsPassed(b: Board, c: Color, s: Square) returns (passed: bool)
    requires b.Valid()
    ensures passed <==> !Opposed(b.squares[..], c, s)
  {
    ghost var sq := b.squares[..];
    var lo := if File(s) - 1 < 0 then 0 else File(s) - 1;
    var hi := if File(s) + 1 > 7 then 7 else File(s) + 1;
    var f := lo;
    while f <= hi
      invariant lo <= f <= hi + 1
      invariant forall t: Square :: lo <= File(t) < f && Ahead(c, s, t) ==> sq[t] != Man(Opposite(c), Pawn)
    {
      var found := EnemyPawnAhead(b, c, s, f);
      if found {
        ghost var t: Square :| b.squares[t] == Man(Opposite(c), Pawn) && File(t) == f && Ahead(c, s, t);
        assert sq[t] == Man(Opposite(c), Pawn);
        return false;
      }
      assert forall t: Square :: sq[t] == b.squares[t];
      f := f + 1;
    }
    return true;
  }

  method EvaluatePawnStructure(b: Board, c: Color) returns (score: int)
    requires b.Valid()
    ensures score == Sum(Pawns(b.squares[..], c))
  {
    hide Sum, Doubled, Supported, Opposed, FilePawns;
    ghost var sq := b.squares[..];
    ghost var xs := Pawns(sq, c);
    var counts := CountPawns(b, c);
    score := 0;
    SumEmpty(xs);
    for s := 0 to 64
      invariant b.squares[..] == sq
      invariant forall f :: 0 <= f < 8 ==> counts[f] == |FilePawns(sq, c, f, 64)|
      invariant score == Sum(xs[..s])
    {
      SumStep(xs, s);
      assert xs[s] == PawnAt(sq, c, s);
      assert b.squares[s] == sq[s];
      if b.squares[s] == Man(c, Pawn) {
        CountsTell(sq, c, s);
        var f := File(s);
        if counts[f] > 1 {
          score := score + DOUBLED_PAWN_PENALTY;
        }
        var left := f > 0 && counts[f - 1] > 0;
        var right := f < 7 && counts[f + 1] > 0;
        if !left && !right {
          score := score + ISOLATED_PAWN_PENALTY;
        }
        var passed := IsPassed(b, c, s);
        if passed {
          score := score + PassedPawnBonus(RankFrom(c, s));
        }
      }
    }
    SumWhole(xs);
  }

  lemma SideDoesNotMatter(p: Position, c: Color, side: Color)
    ensures MoveCount(p.(side := side), c) == MoveCount(p, c)
  {
    var q := p.(side := side);
    forall s: Square
      ensures PieceMoveSet(q, s, c) == PieceMoveSet(p, s, c)
    {
      forall m: Move
        ensures PieceMove(q, s, c, m) <==> PieceMove(p, s, c, m)
      {
      }
    }
    assert MoveCounts(q, c) == MoveCounts(p, c);
  }

  /** Lends the move to `c`, counts, and gives it back. */
  method CountMobility(b: Board, c: Color) returns (count: int)
    requires b.Valid()
    modifies b
    ensures b.View() == old(b.View())
    ensures old(b.Keyed()) ==> b.key == old(b.key)
    ensures count == MoveCount(b.View(), c)
  {
    hide Hash, MoveCount;
    var original := b.side;
    SideDoesNotMatter(b.View(), c, c);
    b.side := c;
    var key := b.ComputeHash();
    b.key := key;
    var moves := GeneratePseudoLegalMoves(b);
    count := |moves|;
    b.side := original;
    key := b.ComputeHash();
    b.key := key;
  }

  method CountBishops(b: Board, c: Color) returns (count: int)
    requires b.Valid()
    ensures count == Sum(Bishops(b.squares[..], c))
  {
    hide Sum;
    ghost var xs := Bishops(b.squares[..], c);
    count := 0;
    SumEmpty(xs);
    for s := 0 to 64
      invariant count == Sum(xs[..s])
    {
      SumStep(xs, s);
      if b.squares[s] == Man(c, Bishop) {
        count := count + 1;
      }
    }
    SumWhole(xs);
  }

  /** The first pass over the board. */
  method SumMaterial(b: Board) returns (material: int, pst: int)
    requires b.Valid()
    ensures var sq := b.squares[..];
      && material == Sum(Materials(sq, White)) - Sum(Materials(sq, Black))
      && pst == Sum(Psts(sq, White)) - Sum(Psts(sq, Black))
  {
    hide Sum, PstBonus, PieceValue;
    ghost var sq := b.squares[..];
    ghost var wm, bm, wp, bp := Materials(sq, White), Materials(sq, Black), Psts(sq, White), Psts(sq, Black);
    var whiteMaterial, blackMaterial, whitePst, blackPst := 0, 0, 0, 0;
    SumEmpty(wm);
    SumEmpty(bm);
    SumEmpty(wp);
    SumEmpty(bp);
    for s := 0 to 64
      invariant whiteMaterial == Sum(wm[..s]) && blackMaterial == Sum(bm[..s])
      invariant whitePst == Sum(wp[..s]) && blackPst == Sum(bp[..s])
    {
      SumStep(wm, s);
      SumStep(bm, s);
      SumStep(wp, s);
      SumStep(bp, s);
      var pc := b.squares[s];
      assert pc == sq[s];
      if pc.Man? {
        if pc.color == White {
          whiteMaterial := whiteMaterial + PieceValue(pc.kind);
          whitePst := whitePst + PstBonus(pc.kind, pc.color, s);
        } else {
          blackMaterial := blackMaterial + PieceValue(pc.kind);
          blackPst := blackPst + PstBonus(pc.kind, pc.color, s);
        }
      }
    }
    SumWhole(wm);
    SumWhole(bm);
    SumWhole(wp);
    SumWhole(bp);
    material, pst := whiteMaterial - blackMaterial, whitePst - blackPst;
  }

  method KingSafetyOf(b: Board, c: Color) returns (score: int)
    requires b.Valid()
    ensures score == KingSafety(b.squares[..], c)
  {
    var k := b.LocateKing(c);
    if k == 64 {
      return 0;
    }
    score := EvaluateKingSafety(b, c, k);
  }

  method EvaluateDetailed(b: Board) returns (e: EvalBreakdown)
    requires b.Valid()
    ensures e == Breakdown(b.View())
  {
    hide Sum, KingSafety, MoveCount, Materials, Psts, Pawns, Bishops, Hash;
    var material, pst := SumMaterial(b);
    var whiteSafety := KingSafetyOf(b, White);
    var blackSafety := KingSafetyOf(b, Black);
    var whitePawns := EvaluatePawnStructure(b, White);
    var blackPawns := EvaluatePawnStructure(b, Black);
    var copy := new Board.Copy(b);
    var whiteMobility := CountMobility(copy, White);
    var blackMobility := CountMobility(copy, Black);
    var whiteBishops := CountBishops(b, White);
    var blackBishops := CountBishops(b, Black);
    var pair := (if whiteBishops >= 2 then BISHOP_PAIR_BONUS else 0) - (if blackBishops >= 2 then BISHOP_PAIR_BONUS else 0);
    var safety, pawns := whiteSafety - blackSafety, whitePawns - blackPawns;
    var mobility := (whiteMobility - blackMobility) * MOBILITY_WEIGHT;
    e := EvalBreakdown(material, pst, safety, pawns, mobility, pair, material + pst + safety + pawns + mobility + pair);
  }

  /** The score from the point of view of the side to move. */
  method Evaluate(b: Board) returns (score: int)
    requires b.Valid()
    ensures score == Evaluation(b.View())
  {
    hide Breakdown;
    var e := EvaluateDetailed(b);
    score := if b.side == White then e.total else -e.total;
  }
}
