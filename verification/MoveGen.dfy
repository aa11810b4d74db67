/** The scanning algorithms: attack detection and move generation, proved against Rules.dfy. */
module MoveGen {
  import opened Types
  import opened Rules
  import opened Agreement
  import opened Reversal
  import opened Invariant
  import opened Zobrist
  import opened BoardState
  import opened MoveSets

  // ---------------------------------------------------------------- step tables

  const KNIGHT_OFFSETS: seq<(int, int)> :=
    [(-2, -1), (-2, 1), (-1, -2), (-1, 2), (1, -2), (1, 2), (2, -1), (2, 1)]

  const KING_OFFSETS: seq<(int, int)> :=
    [(-1, -1), (-1, 0), (-1, 1), (0, -1), (0, 1), (1, -1), (1, 0), (1, 1)]

  predicate AtOffset(s: Square, t: Square, o: (int, int)) {
    Rank(t) == Rank(s) + o.0 && File(t) == File(s) + o.1
  }

  function KnightIndex(dr: int, df: int): int {
    if dr == -2 then (if df == -1 then 0 else 1)
    else if dr == -1 then (if df == -2 then 2 else 3)
    else if dr == 1 then (if df == -2 then 4 else 5)
    else (if df == -1 then 6 else 7)
  }

  function KingIndex(dr: int, df: int): int {
    if dr == -1 then df + 1 else if dr == 0 then (if df == -1 then 3 else 4) else df + 6
  }

  /** One row of the precomputed tables: the on-board squares at the given offsets. */
  method StepTargets(s: Square, offsets: seq<(int, int)>) returns (ts: seq<Square>)
    requires NoDuplicates(offsets)
    ensures forall t: Square :: t in ts <==> exists j :: 0 <= j < |offsets| && AtOffset(s, t, offsets[j])
    ensures NoDuplicates(ts)
  {
    ts := [];
    for i := 0 to |offsets|
      invariant forall t: Square :: t in ts <==> exists j :: 0 <= j < i && AtOffset(s, t, offsets[j])
      invariant NoDuplicates(ts)
    {
      hide AtOffset;
      var r, f := Rank(s) + offsets[i].0, File(s) + offsets[i].1;
      if !OnBoard(r, f) {
        OffBoard(s, offsets[i]);
      } else {
        var t := At(r, f);
        OneOffsetOnly(s, t, offsets, i);
        NoDuplicatesConcat(ts, [t]);
        ts := ts + [t];
      }
    }
  }

  lemma OffBoard(s: Square, o: (int, int))
    requires !OnBoard(Rank(s) + o.0, File(s) + o.1)
    ensures forall u: Square :: !AtOffset(s, u, o)
  {
  }

  lemma OneOffsetOnly(s: Square, t: Square, offsets: seq<(int, int)>, i: nat)
    requires NoDuplicates(offsets) && i < |offsets|
    requires OnBoard(Rank(s) + offsets[i].0, File(s) + offsets[i].1) && t == At(Rank(s) + offsets[i].0, File(s) + offsets[i].1)
    ensures forall u: Square :: AtOffset(s, u, offsets[i]) <==> u == t
    ensures forall j :: 0 <= j < i ==> !AtOffset(s, t, offsets[j])
  {
    assert forall j :: 0 <= j < i ==> offsets[j] != offsets[i];
  }

  method KnightTargets(s: Square) returns (ts: seq<Square>)
    ensures forall t: Square :: t in ts <==> KnightStep(s, t)
    ensures NoDuplicates(ts)
  {
    ts := StepTargets(s, KNIGHT_OFFSETS);
    forall t: Square
      ensures t in ts <==> KnightStep(s, t)
    {
      if KnightStep(s, t) {
        assert AtOffset(s, t, KNIGHT_OFFSETS[KnightIndex(Rank(t) - Rank(s), File(t) - File(s))]);
      }
    }
  }

  method KingTargets(s: Square) returns (ts: seq<Square>)
    ensures forall t: Square :: t in ts <==> KingStep(s, t)
    ensures NoDuplicates(ts)
  {
    ts := StepTargets(s, KING_OFFSETS);
    forall t: Square
      ensures t in ts <==> KingStep(s, t)
    {
      if KingStep(s, t) {
        assert AtOffset(s, t, KING_OFFSETS[KingIndex(Rank(t) - Rank(s), File(t) - File(s))]);
      }
    }
  }

  // ---------------------------------------------------------------- rays

  /** Directions 0-3 are the rook's, 4-7 the bishop's. */
  const RAY_DR: seq<int> := [-1, 1, 0, 0, -1, -1, 1, 1]
  const RAY_DF: seq<int> := [0, 0, -1, 1, -1, 1, -1, 1]

  function RayIndex(dr: int, df: int): int {
    if df == 0 then (if dr == -1 then 0 else 1)
    else if dr == 0 then (if df == -1 then 2 else 3)
    else if dr == -1 then (if df == -1 then 4 else 5)
    else (if df == -1 then 6 else 7)
  }

  predicate UnitStep(dr: int, df: int) {
    -1 <= dr <= 1 && -1 <= df <= 1 && (dr != 0 || df != 0)
  }

  predicate InDirection(s: Square, t: Square, dr: int, df: int) {
    Aligned(s, t) && RankDir(s, t) == dr && FileDir(s, t) == df
  }

  predicate RayOnBoard(s: Square, dr: int, df: int, n: int) {
    OnBoard(Rank(s) + Off(n, dr), File(s) + Off(n, df))
  }

  function RaySquare(s: Square, dr: int, df: int, n: int): Square
    requires RayOnBoard(s, dr, df, n)
  {
    At(Rank(s) + Off(n, dr), File(s) + Off(n, df))
  }

  /** The first `n - 1` squares of a ray are empty. */
  ghost predicate RayEmpty(b: Placement, s: Square, dr: int, df: int, n: int) {
    forall k :: 1 <= k < n ==> StepPiece(b, s, dr, df, k) == Empty
  }

  lemma RayGeometry(s: Square, dr: int, df: int, n: int)
    requires UnitStep(dr, df) && 1 <= n && RayOnBoard(s, dr, df, n)
    ensures var t := RaySquare(s, dr, df, n);
      && InDirection(s, t, dr, df) && Dist(s, t) == n
      && (Diagonal(s, t) <==> dr != 0 && df != 0)
      && (Straight(s, t) <==> dr == 0 || df == 0)
  {
  }

  /** Every square in a direction lies on the ray at its distance. */
  lemma RayReaches(s: Square, t: Square, dr: int, df: int)
    requires InDirection(s, t, dr, df)
    ensures UnitStep(dr, df) && 1 <= Dist(s, t) <= 7
    ensures RayOnBoard(s, dr, df, Dist(s, t)) && RaySquare(s, dr, df, Dist(s, t)) == t
  {
  }

  lemma RayLeavesBoard(s: Square, dr: int, df: int, n: int, d: int)
    requires UnitStep(dr, df) && 1 <= n <= d && RayOnBoard(s, dr, df, d)
    ensures RayOnBoard(s, dr, df, n)
  {
  }

  // ---------------------------------------------------------------- attack detection

  ghost predicate SliderAttacks(b: Placement, x: Square, y: Square) {
    b[x].Man? && SliderLine(b[x].kind, x, y) && LineClear(b, x, y)
  }

  /** No slider of `c` attacks `s` along this ray. */
  ghost predicate RayHarmless(b: Placement, s: Square, c: Color, dr: int, df: int) {
    forall x: Square :: Own(b, x, c) && InDirection(s, x, dr, df) ==> !SliderAttacks(b, x, s)
  }

  /** The piece on a ray square threatens back along the ray. */
  predicate ThreatensAlong(pc: Piece, dr: int, df: int) {
    pc.Man? &&
    (pc.kind == Queen
     || (pc.kind == Bishop && dr != 0 && df != 0)
     || (pc.kind == Rook && (dr == 0 || df == 0)))
  }

  lemma LineClearAt(b: Placement, s: Square, t: Square, dr: int, df: int, n: int)
    requires LineClear(b, s, t) && InDirection(s, t, dr, df) && 1 <= n < Dist(s, t)
    ensures StepPiece(b, s, dr, df, n) == Empty
  {
    hide StepPiece, Dist, Aligned;
  }

  lemma RayBlocked(b: Placement, s: Square, c: Color, dr: int, df: int, n: int)
    requires UnitStep(dr, df) && 1 <= n && RayEmpty(b, s, dr, df, n)
    requires RayOnBoard(s, dr, df, n) ==>
      var pc := b[RaySquare(s, dr, df, n)]; pc.Man? && (pc.color != c || !ThreatensAlong(pc, dr, df))
    ensures RayHarmless(b, s, c, dr, df)
  {
    hide Rank, File, At, LineClear, Dist;
    forall x: Square | Own(b, x, c) && InDirection(s, x, dr, df)
      ensures !SliderAttacks(b, x, s)
    {
      var d := Dist(s, x);
      RayReaches(s, x, dr, df);
      RayGeometry(s, dr, df, d);
      assert StepPiece(b, s, dr, df, d) == b[x];
      if d >= n {
        RayLeavesBoard(s, dr, df, n, d);
        assert StepPiece(b, s, dr, df, n) == b[RaySquare(s, dr, df, n)];
        if LineClear(b, x, s) {
          LineClearReversed(b, x, s);
          if n < d {
            LineClearAt(b, s, x, dr, df, n);
          }
        }
      }
    }
  }

  lemma RayThreat(b: Placement, s: Square, dr: int, df: int, n: int)
    requires UnitStep(dr, df) && 1 <= n && RayEmpty(b, s, dr, df, n) && RayOnBoard(s, dr, df, n)
    requires ThreatensAlong(b[RaySquare(s, dr, df, n)], dr, df)
    ensures Attacks(b, RaySquare(s, dr, df, n), s)
  {
    var t := RaySquare(s, dr, df, n);
    RayGeometry(s, dr, df, n);
    assert LineClear(b, s, t);
    LineClearReversed(b, s, t);
  }

  /** One ray of the reverse scan. */
  method RayAttacked(b: Board, s: Square, c: Color, dr: int, df: int) returns (hit: bool)
    requires b.Valid() && UnitStep(dr, df)
    ensures hit ==> AttackedBy(b.squares[..], s, c)
    ensures !hit ==> RayHarmless(b.squares[..], s, c, dr, df)
  {
    ghost var sq := b.squares[..];
    ghost var n := 1;
    var r, f := Rank(s) + dr, File(s) + df;
    while OnBoard(r, f)
      invariant 1 <= n <= 8 && r == Rank(s) + Off(n, dr) && f == File(s) + Off(n, df)
      invariant RayEmpty(sq, s, dr, df, n)
      decreases 8 - n
    {
      var pc := b.squares[At(r, f)];
      assert pc == sq[RaySquare(s, dr, df, n)];
      if pc.Man? {
        if pc.color == c && ThreatensAlong(pc, dr, df) {
          RayThreat(sq, s, dr, df, n);
          return true;
        }
        RayBlocked(sq, s, c, dr, df, n);
        return false;
      }
      assert StepPiece(sq, s, dr, df, n) == Empty;
      r, f := r + dr, f + df;
      n := n + 1;
    }
    RayBlocked(sq, s, c, dr, df, n);
    return false;
  }

  lemma NoAttacker(b: Placement, s: Square, c: Color)
    requires forall x: Square :: Own(b, x, c) ==>
      (match b[x].kind
       case Pawn => !PawnHits(c, x, s)
       case Knight => !KnightStep(x, s)
       case King => !KingStep(x, s)
       case _ => true)
    requires forall i :: 0 <= i < 8 ==> RayHarmless(b, s, c, RAY_DR[i], RAY_DF[i])
    ensures !AttackedBy(b, s, c)
  {
    forall x: Square | Own(b, x, c)
      ensures !Attacks(b, x, s)
    {
      if Aligned(s, x) {
        var dr, df := RankDir(s, x), FileDir(s, x);
        assert InDirection(s, x, dr, df);
        var i := RayIndex(dr, df);
        assert RAY_DR[i] == dr && RAY_DF[i] == df;
        assert RayHarmless(b, s, c, RAY_DR[i], RAY_DF[i]);
      }
    }
  }

  method PawnAttacked(b: Board, s: Square, c: Color) returns (hit: bool)
    requires b.Valid()
    ensures hit <==> exists x: Square :: b.squares[x] == Man(c, Pawn) && PawnHits(c, x, s)
  {
    var r := Rank(s) - Forward(c);
    if 0 <= r < 8 {
      if File(s) > 0 {
        var x := At(r, File(s) - 1);
        if b.squares[x] == Man(c, Pawn) {
          return true;
        }
      }
      if File(s) < 7 {
        var x := At(r, File(s) + 1);
        if b.squares[x] == Man(c, Pawn) {
          return true;
        }
      }
    }
    return false;
  }

  method AnyOf(b: Board, ts: seq<Square>, pc: Piece) returns (hit: bool)
    requires b.Valid()
    ensures hit <==> exists x: Square :: x in ts && b.squares[x] == pc
  {
    for i := 0 to |ts|
      invariant forall j :: 0 <= j < i ==> b.squares[ts[j]] != pc
    {
      if b.squares[ts[i]] == pc {
        assert ts[i] in ts;
        return true;
      }
    }
    return false;
  }

  /** The reverse scan: pawns, knights, kings, then the eight rays. */
  method IsSquareAttacked(b: Board, s: Square, c: Color) returns (attacked: bool)
    requires b.Valid()
    ensures attacked <==> AttackedBy(b.squares[..], s, c)
  {
    ghost var sq := b.squares[..];
    attacked := PawnAttacked(b, s, c);
    if attacked {
      ghost var x: Square :| b.squares[x] == Man(c, Pawn) && PawnHits(c, x, s);
      assert Attacks(sq, x, s);
      return;
    }
    var ts := KnightTargets(s);
    attacked := AnyOf(b, ts, Man(c, Knight));
    if attacked {
      ghost var x: Square :| x in ts && b.squares[x] == Man(c, Knight);
      assert Attacks(sq, x, s);
      return;
    }
    var ks := KingTargets(s);
    attacked := AnyOf(b, ks, Man(c, King));
    if attacked {
      ghost var x: Square :| x in ks && b.squares[x] == Man(c, King);
      assert Attacks(sq, x, s);
      return;
    }
    for i := 0 to 8
      invariant forall j :: 0 <= j < i ==> RayHarmless(sq, s, c, RAY_DR[j], RAY_DF[j])
    {
      attacked := RayAttacked(b, s, c, RAY_DR[i], RAY_DF[i]);
      if attacked {
        return;
      }
    }
    NoAttacker(sq, s, c);
  }

  method IsInCheck(b: Board, c: Color) returns (check: bool)
    requires b.Valid()
    ensures check <==> InCheck(b.squares[..], c)
  {
    var k := b.LocateKing(c);
    if k == 64 {
      return false;
    }
    check := IsSquareAttacked(b, k, Opposite(c));
  }

  // ---------------------------------------------------------------- pseudo-legal generation

  /** `ms` lists the moves that satisfy the generator's rule for the man on `s`, each once. */
  ghost predicate Lists(ms: seq<Move>, p: Position, s: Square, c: Color) {
    && (forall m: Move :: m in ms <==> PieceMove(p, s, c, m))
    && NoDuplicates(ms)
  }

  /** The plain move, or the four promotions on the last rank. */
  function PawnForms(s: Square, to: Square, base: Flags, c: Color): (ms: seq<Move>)
    ensures forall m: Move :: m in ms <==> m.from == s && m.to == to && PawnForm(m, base, c)
    ensures NoDuplicates(ms)
  {
    if Rank(to) == LastRank(c) then
      var fl := base.(promotion := true);
      [Move(s, to, fl, Some(Queen)), Move(s, to, fl, Some(Rook)),
       Move(s, to, fl, Some(Bishop)), Move(s, to, fl, Some(Knight))]
    else
      [Move(s, to, base, None)]
  }

  ghost predicate PawnAdvance(p: Position, s: Square, m: Move, c: Color) {
    m.from == s && (PawnPush(p, m, c) || PawnDouble(p, m, c))
  }

  method GeneratePawnPushes(b: Board, s: Square, c: Color) returns (ms: seq<Move>)
    requires b.Valid()
    ensures forall m: Move :: m in ms <==> PawnAdvance(b.View(), s, m, c)
    ensures NoDuplicates(ms)
  {
    ghost var p := b.View();
    ms := [];
    var r := Rank(s) + Forward(c);
    if 0 <= r < 8 {
      var one := At(r, File(s));
      if b.squares[one] == Empty {
        ms := PawnForms(s, one, PLAIN, c);
        if Rank(s) == StartRank(c) {
          var two := At(Rank(s) + 2 * Forward(c), File(s));
          if b.squares[two] == Empty {
            ms := ms + [Move(s, two, DOUBLE_PAWN_PUSH, None)];
          }
        }
      }
    }
  }

  ghost predicate PawnTake(p: Position, s: Square, df: int, m: Move, c: Color) {
    m.from == s && File(m.to) == File(s) + df && (PawnCapture(p, m, c) || PawnEnPassant(p, m, c))
  }

  /** The capture towards file `File(s) + df`. */
  method GeneratePawnCapture(b: Board, s: Square, df: int, c: Color) returns (ms: seq<Move>)
    requires b.Valid() && (df == -1 || df == 1)
    ensures forall m: Move :: m in ms <==> PawnTake(b.View(), s, df, m, c)
    ensures NoDuplicates(ms)
  {
    ghost var p := b.View();
    ms := [];
    var r, f := Rank(s) + Forward(c), File(s) + df;
    if OnBoard(r, f) {
      var to := At(r, f);
      var target := b.squares[to];
      if target.Man? && target.color != c {
        ms := PawnForms(s, to, PLAIN, c);
      } else if b.ep == Some(to) {
        ms := PawnForms(s, to, EN_PASSANT, c);
      }
    }
  }

  method GeneratePawnMoves(b: Board, s: Square, c: Color) returns (ms: seq<Move>)
    requires b.Valid() && b.squares[s] == Man(c, Pawn)
    ensures Lists(ms, b.View(), s, c)
  {
    ms := GeneratePawnPushes(b, s, c);
    var left := GeneratePawnCapture(b, s, -1, c);
    var right := GeneratePawnCapture(b, s, 1, c);
    NoDuplicatesConcat(ms, left);
    NoDuplicatesConcat(ms + left, right);
    ms := ms + left + right;
  }

  /** The targets not held by the mover's own men, as plain moves. */
  method StepMoves(b: Board, s: Square, ts: seq<Square>, c: Color) returns (ms: seq<Move>)
    requires b.Valid() && NoDuplicates(ts)
    ensures forall m: Move :: m in ms <==> m.from == s && Plain(m) && m.to in ts && !Own(b.squares[..], m.to, c)
    ensures NoDuplicates(ms)
  {
    ms := [];
    for i := 0 to |ts|
      invariant forall m: Move :: m in ms <==>
        m.from == s && Plain(m) && m.to in ts[..i] && !Own(b.squares[..], m.to, c)
      invariant NoDuplicates(ms)
    {
      assert ts[..i + 1] == ts[..i] + [ts[i]];
      var target := b.squares[ts[i]];
      if target == Empty || target.color != c {
        assert ts[i] !in ts[..i];
        ms := ms + [Move(s, ts[i], PLAIN, None)];
      }
    }
    assert ts[..|ts|] == ts;
  }

  method GenerateKnightMoves(b: Board, s: Square, c: Color) returns (ms: seq<Move>)
    requires b.Valid() && b.squares[s] == Man(c, Knight)
    ensures Lists(ms, b.View(), s, c)
  {
    var ts := KnightTargets(s);
    ms := StepMoves(b, s, ts, c);
  }

  ghost predicate RayMove(b: Placement, s: Square, c: Color, dr: int, df: int, m: Move) {
    && m.from == s && Plain(m) && InDirection(s, m.to, dr, df)
    && LineClear(b, s, m.to) && !Own(b, m.to, c)
  }

  lemma RayMoveAt(b: Placement, s: Square, c: Color, dr: int, df: int, n: int, m: Move)
    requires UnitStep(dr, df) && 1 <= n && RayEmpty(b, s, dr, df, n) && RayOnBoard(s, dr, df, n)
    ensures RayMove(b, s, c, dr, df, m) && Dist(s, m.to) == n
      <==> m == Move(s, RaySquare(s, dr, df, n), PLAIN, None) && !Own(b, m.to, c)
  {
    RayGeometry(s, dr, df, n);
    if InDirection(s, m.to, dr, df) {
      RayReaches(s, m.to, dr, df);
    }
  }

  /** Beyond a blocked or exhausted ray there are no more moves. */
  lemma RayMovesEnd(b: Placement, s: Square, c: Color, dr: int, df: int, n: int, m: Move)
    requires UnitStep(dr, df) && 1 <= n
    requires RayOnBoard(s, dr, df, n) ==> StepPiece(b, s, dr, df, n) != Empty
    requires RayMove(b, s, c, dr, df, m)
    ensures Dist(s, m.to) <= n
    ensures !RayOnBoard(s, dr, df, n) ==> Dist(s, m.to) < n
  {
    RayReaches(s, m.to, dr, df);
    if Dist(s, m.to) >= n {
      RayLeavesBoard(s, dr, df, n, Dist(s, m.to));
    }
  }

  /** `ms` are the ray moves of fewer than `n` steps. */
  ghost predicate RayFound(ms: seq<Move>, b: Placement, s: Square, c: Color, dr: int, df: int, n: int) {
    NoDuplicates(ms) && forall m: Move :: m in ms <==> RayMove(b, s, c, dr, df, m) && Dist(s, m.to) < n
  }

  lemma RayFoundStart(b: Placement, s: Square, c: Color, dr: int, df: int)
    requires UnitStep(dr, df)
    ensures RayFound([], b, s, c, dr, df, 1) && RayEmpty(b, s, dr, df, 1)
  {
    forall m: Move | RayMove(b, s, c, dr, df, m)
      ensures Dist(s, m.to) >= 1
    {
      RayReaches(s, m.to, dr, df);
    }
  }

  lemma RayFoundStep(ms: seq<Move>, b: Placement, s: Square, c: Color, dr: int, df: int, n: int)
    requires UnitStep(dr, df) && 1 <= n && RayFound(ms, b, s, c, dr, df, n)
    requires RayEmpty(b, s, dr, df, n) && RayOnBoard(s, dr, df, n)
    ensures var to := RaySquare(s, dr, df, n);
      && RayFound(if Own(b, to, c) then ms else ms + [Move(s, to, PLAIN, None)], b, s, c, dr, df, n + 1)
      && (b[to] == Empty ==> RayEmpty(b, s, dr, df, n + 1))
  {
    hide RayMove, Dist, Rank, File, At, InDirection;
    var to := RaySquare(s, dr, df, n);
    var here := Move(s, to, PLAIN, None);
    forall m: Move
      ensures RayMove(b, s, c, dr, df, m) && Dist(s, m.to) == n <==> m == here && !Own(b, to, c)
    {
      RayMoveAt(b, s, c, dr, df, n, m);
    }
    RayGeometry(s, dr, df, n);
    assert here !in ms;
  }

  lemma RayFoundEnd(ms: seq<Move>, b: Placement, s: Square, c: Color, dr: int, df: int, n: int)
    requires UnitStep(dr, df) && 1 <= n && RayFound(ms, b, s, c, dr, df, n)
    requires !RayOnBoard(s, dr, df, n) || (n > 1 && RayOnBoard(s, dr, df, n - 1) && StepPiece(b, s, dr, df, n - 1) != Empty)
    ensures forall m: Move :: m in ms <==> RayMove(b, s, c, dr, df, m)
  {
    hide RayMove, Dist, Rank, File, At;
    forall m: Move | RayMove(b, s, c, dr, df, m)
      ensures Dist(s, m.to) < n
    {
      if RayOnBoard(s, dr, df, n) {
        RayMovesEnd(b, s, c, dr, df, n - 1, m);
      } else {
        RayMovesEnd(b, s, c, dr, df, n, m);
      }
    }
  }

  method GenerateRay(b: Board, s: Square, c: Color, dr: int, df: int) returns (ms: seq<Move>)
    requires b.Valid() && UnitStep(dr, df)
    ensures forall m: Move :: m in ms <==> RayMove(b.squares[..], s, c, dr, df, m)
    ensures NoDuplicates(ms)
  {
    hide RayMove, RayFound, RayEmpty, NoDuplicates, Rank, File;
    ghost var sq := b.squares[..];
    ghost var n := 1;
    ms := [];
    var r, f := Rank(s) + dr, File(s) + df;
    var open := true;
    RayFoundStart(sq, s, c, dr, df);
    OnTheBoard(s);
    while open && OnBoard(r, f)
      invariant 1 <= n <= 9 && r == Rank(s) + Off(n, dr) && f == File(s) + Off(n, df)
      invariant RayFound(ms, sq, s, c, dr, df, n)
      invariant open ==> RayEmpty(sq, s, dr, df, n)
      invariant !open ==> n > 1 && RayOnBoard(s, dr, df, n - 1) && StepPiece(sq, s, dr, df, n - 1) != Empty
      decreases 9 - n, open
    {
      RayFoundStep(ms, sq, s, c, dr, df, n);
      var to := At(r, f);
      var target := b.squares[to];
      assert target == sq[to];
      if target == Empty {
        ms := ms + [Move(s, to, PLAIN, None)];
      } else {
        if target.color != c {
          ms := ms + [Move(s, to, PLAIN, None)];
        }
        open := false;
      }
      r, f := r + dr, f + df;
      n := n + 1;
    }
    RayFoundEnd(ms, sq, s, c, dr, df, n);
    RayFoundDistinct(ms, sq, s, c, dr, df, n);
  }

  lemma OnTheBoard(s: Square)
    ensures OnBoard(Rank(s), File(s))
  {
  }

  lemma RayFoundDistinct(ms: seq<Move>, b: Placement, s: Square, c: Color, dr: int, df: int, n: int)
    requires RayFound(ms, b, s, c, dr, df, n)
    ensures NoDuplicates(ms)
  {
  }

  ghost predicate AnyRayMove(b: Placement, s: Square, c: Color, lo: int, hi: int, m: Move)
    requires 0 <= lo && hi <= 8
  {
    exists j :: lo <= j < hi && RayMove(b, s, c, RAY_DR[j], RAY_DF[j], m)
  }

  lemma RayMovesAreSliderMoves(b: Placement, s: Square, c: Color, k: Kind, m: Move)
    requires k == Bishop || k == Rook || k == Queen
    ensures AnyRayMove(b, s, c, if k == Bishop then 4 else 0, if k == Rook then 4 else 8, m) <==>
      m.from == s && Plain(m) && SliderLine(k, s, m.to) && LineClear(b, s, m.to) && !Own(b, m.to, c)
  {
    var dr, df := RankDir(s, m.to), FileDir(s, m.to);
    if Aligned(s, m.to) {
      var i := RayIndex(dr, df);
      assert RAY_DR[i] == dr && RAY_DF[i] == df;
      assert InDirection(s, m.to, RAY_DR[i], RAY_DF[i]);
      assert m.from == s && Plain(m) && LineClear(b, s, m.to) && !Own(b, m.to, c) ==> RayMove(b, s, c, RAY_DR[i], RAY_DF[i], m);
      assert SliderLine(k, s, m.to) ==> (if k == Bishop then 4 else 0) <= i < (if k == Rook then 4 else 8);
    }
  }

  method GenerateRayMoves(b: Board, s: Square, c: Color, orthogonal: bool, diagonal: bool) returns (ms: seq<Move>)
    requires b.Valid() && (orthogonal || diagonal)
    requires b.squares[s] == Man(c, if !diagonal then Rook else if !orthogonal then Bishop else Queen)
    ensures Lists(ms, b.View(), s, c)
  {
    ghost var sq := b.squares[..];
    ghost var k := b.squares[s].kind;
    var lo := if orthogonal then 0 else 4;
    var hi := if diagonal then 8 else 4;
    ms := [];
    for i := lo to hi
      invariant forall m: Move :: m in ms <==> AnyRayMove(sq, s, c, lo, i, m)
      invariant NoDuplicates(ms)
    {
      var ray := GenerateRay(b, s, c, RAY_DR[i], RAY_DF[i]);
      forall m: Move | m in ray
        ensures m !in ms
      {
        assert forall j :: lo <= j < i ==> (RAY_DR[j], RAY_DF[j]) != (RAY_DR[i], RAY_DF[i]);
      }
      NoDuplicatesConcat(ms, ray);
      ms := ms + ray;
    }
    forall m: Move
      ensures m in ms <==> PieceMove(b.View(), s, c, m)
    {
      RayMovesAreSliderMoves(sq, s, c, k, m);
    }
  }

  method GenerateCastling(b: Board, c: Color) returns (ms: seq<Move>)
    requires b.Valid()
    ensures forall m: Move :: m in ms <==> CastleMove(b.View(), m, c)
    ensures NoDuplicates(ms)
  {
    hide AttackedBy;
    ghost var sq := b.squares[..];
    ms := [];
    if c == White {
      ms := CastleIf(b, b.rights.wk && b.squares[F1] == Empty && b.squares[G1] == Empty,
        Move(E1, G1, KINGSIDE_CASTLE, None), F1, Black);
      var long := CastleIf(b, b.rights.wq && b.squares[D1] == Empty && b.squares[C1] == Empty && b.squares[B1] == Empty,
        Move(E1, C1, QUEENSIDE_CASTLE, None), D1, Black);
      ms := ms + long;
    } else {
      ms := CastleIf(b, b.rights.bk && b.squares[F8] == Empty && b.squares[G8] == Empty,
        Move(E8, G8, KINGSIDE_CASTLE, None), F8, White);
      var long := CastleIf(b, b.rights.bq && b.squares[D8] == Empty && b.squares[C8] == Empty && b.squares[B8] == Empty,
        Move(E8, C8, QUEENSIDE_CASTLE, None), D8, White);
      ms := ms + long;
    }
  }

  /** The castling move, when the way is open and neither the king nor the square it crosses is attacked. */
  method CastleIf(b: Board, open: bool, m: Move, crossed: Square, them: Color) returns (ms: seq<Move>)
    requires b.Valid()
    ensures ms == [] || ms == [m]
    ensures m in ms <==> open && !AttackedBy(b.squares[..], m.from, them) && !AttackedBy(b.squares[..], crossed, them)
  {
    hide AttackedBy;
    ms := [];
    if open {
      var a1 := IsSquareAttacked(b, m.from, them);
      var a2 := IsSquareAttacked(b, crossed, them);
      if !a1 && !a2 {
        ms := [m];
      }
    }
  }

  method GenerateKingMoves(b: Board, s: Square, c: Color) returns (ms: seq<Move>)
    requires b.Valid() && b.squares[s] == Man(c, King)
    ensures Lists(ms, b.View(), s, c)
  {
    var ts := KingTargets(s);
    ms := StepMoves(b, s, ts, c);
    var castling := GenerateCastling(b, c);
    NoDuplicatesConcat(ms, castling);
    ms := ms + castling;
  }

  method GeneratePieceMoves(b: Board, s: Square, c: Color) returns (ms: seq<Move>)
    requires b.Valid() && Own(b.squares[..], s, c)
    ensures Lists(ms, b.View(), s, c)
  {
    match b.squares[s].kind
    case Pawn => ms := GeneratePawnMoves(b, s, c);
    case Knight => ms := GenerateKnightMoves(b, s, c);
    case Bishop => ms := GenerateRayMoves(b, s, c, false, true);
    case Rook => ms := GenerateRayMoves(b, s, c, true, false);
    case Queen => ms := GenerateRayMoves(b, s, c, true, true);
    case King => ms := GenerateKingMoves(b, s, c);
  }

  ghost predicate AtMostOneKing(b: Placement, c: Color) {
    forall i: Square, j: Square :: b[i] == Man(c, King) && b[j] == Man(c, King) ==> i == j
  }

  /** Different men never produce the same move. */
  lemma MovesOfDifferentMen(p: Position, s: Square, t: Square, c: Color, m: Move)
    requires AtMostOneKing(p.squares, c) && s != t
    requires PieceMove(p, s, c, m)
    ensures !PieceMove(p, t, c, m)
  {
  }

  /** Every board, reachable or not: the list is exactly the pseudo-legal moves. */
  method GeneratePseudoLegalMoves(b: Board) returns (ms: seq<Move>)
    requires b.Valid()
    ensures forall m: Move :: m in ms <==> PseudoLegal(b.View(), m)
    ensures AtMostOneKing(b.squares[..], b.side) ==> NoDuplicates(ms)
    ensures |ms| == MoveCount(b.View(), b.side)
  {
    hide PieceMove, AtMostOneKing, Sum;
    ghost var p := b.View();
    ghost var counts := MoveCounts(p, b.side);
    var c := b.side;
    ms := [];
    SumEmpty(counts);
    for s := 0 to 64
      invariant |ms| == Sum(counts[..s])
      invariant forall m: Move :: m in ms <==> exists x: Square :: x < s && PieceMove(p, x, c, m)
      invariant AtMostOneKing(p.squares, c) ==> NoDuplicates(ms)
    {
      assert p.squares[s] == b.squares[s];
      SumStep(counts, s);
      OnlyOwnMenMove(p, s, c);
      if b.squares[s].Man? && b.squares[s].color == c {
        var more := GeneratePieceMoves(b, s, c);
        ListSize(more, PieceMoveSet(p, s, c));
        if AtMostOneKing(p.squares, c) {
          forall m: Move | m in more
            ensures m !in ms
          {
            if x: Square :| x < s && PieceMove(p, x, c, m) {
              MovesOfDifferentMen(p, x, s, c, m);
            }
          }
          NoDuplicatesConcat(ms, more);
        }
        ms := ms + more;
      }
    }
    SumWhole(counts);
  }

  lemma OnlyOwnMenMove(p: Position, s: Square, c: Color)
    ensures !Own(p.squares, s, c) ==> (forall m: Move :: !PieceMove(p, s, c, m)) && |PieceMoveSet(p, s, c)| == 0
  {
    if !Own(p.squares, s, c) {
      assert PieceMoveSet(p, s, c) == {};
    }
  }

  // ---------------------------------------------------------------- legal generation

  lemma InvariantHasOneKing(p: Position, c: Color)
    requires OneKing(p.squares, c)
    ensures AtMostOneKing(p.squares, c)
  {
    var k: Square :| SoleKing(p.squares, c, k);
  }

  /** Makes a move, tests the mover's king, and takes the move back. */
  method LeavesKingSafe(work: Board, m: Move, c: Color) returns (safe: bool)
    requires work.Valid() && Playable(work.View(), m)
    modifies work, work.squares
    ensures work.View() == old(work.View()) && work.key == old(work.key)
    ensures safe <==> !InCheck(Apply(work.View(), m).squares, c)
  {
    hide InCheck, Relocated, Returned;
    ghost var p := work.View();
    RetractUndoesApply(p, m, work.key);
    var undo := work.MakeMove(m);
    var check := IsInCheck(work, c);
    safe := !check;
    work.UndoMove(m, undo);
  }

  /**
   Makes each pseudo-legal move on a working copy, keeps it if the mover is not in check, and
   takes it back.  The copy is the same board again after every round.
   */
  method GenerateLegalMoves(b: Board) returns (legal: seq<Move>)
    requires b.Valid() && Inv(b.View())
    ensures forall m: Move :: m in legal <==> Legal(b.View(), m)
    ensures NoDuplicates(legal)
  {
    hide InCheck, Apply, PseudoLegal, Shape, Playable;
    ghost var p := b.View();
    var pseudo := GeneratePseudoLegalMoves(b);
    InvariantHasOneKing(p, b.side);
    var work := new Board.Copy(b);
    legal := [];
    for i := 0 to |pseudo|
      invariant work.View() == p && b.View() == p
      invariant forall m: Move :: m in legal <==> m in pseudo[..i] && Legal(p, m)
      invariant NoDuplicates(legal)
    {
      var m := pseudo[i];
      assert pseudo[..i + 1] == pseudo[..i] + [m];
      assert m in pseudo && m !in pseudo[..i];
      PseudoLegalShape(p, m);
      ShapeIsPlayable(p, m);
      var safe := LeavesKingSafe(work, m, b.side);
      if safe {
        legal := legal + [m];
      }
    }
    assert pseudo[..|pseudo|] == pseudo;
  }

  datatype GameStatus =
    | Ongoing | Checkmate | Stalemate | DrawFiftyMove | DrawInsufficientMaterial | DrawThreefoldRepetition
    | DrawAgreement | Resignation | Timeout | Abandonment

  /** The status of a position: the fifty-move count is tested before mate. */
  ghost function StatusOf(p: Position): GameStatus {
    if p.halfmove >= 100 then DrawFiftyMove
    else if exists m: Move :: Legal(p, m) then Ongoing
    else if InCheck(p.squares, p.side) then Checkmate
    else Stalemate
  }

  method GetGameStatus(b: Board) returns (status: GameStatus)
    requires b.Valid() && Inv(b.View())
    ensures status == StatusOf(b.View())
  {
    if b.halfmove >= 100 {
      return DrawFiftyMove;
    }
    var legal := GenerateLegalMoves(b);
    if legal == [] {
      var check := IsInCheck(b, b.side);
      return if check then Checkmate else Stalemate;
    }
    assert legal[0] in legal;
    return Ongoing;
  }
}
