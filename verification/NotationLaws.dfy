/** Texts checked against each other and against the examples of the PGN Standard, not against their own readers. */
module NotationLaws {
  import opened Types
  import opened Rules
  import opened Reversal
  import opened Invariant
  import opened Text
  import opened MoveGen
  import opened San
  import opened Uci
  import opened Fen
  import opened MoveLaws
  import opened StatusLaws

  // ---------------------------------------------------------------- one alphabet

  /** The letter of a kind of man, capital as for White in a board diagram. */
  function Capital(k: Kind): char {
    PieceChar(Man(White, k))
  }

  lemma SameLetters(k: Kind)
    ensures Letter(k) == if k == Pawn then "" else [Capital(k)]
    ensures Capital(k) in "PNBRQK" && Lower(Capital(k)) == PieceChar(Man(Black, k))
  {
  }

  /** The promotion letter of a stored move is the letter of that man in Black's alphabet. */
  lemma SuffixIsLowerCase(m: Move)
    requires m.flags.promotion && PromotionKind(m.promo)
    ensures PromotionSuffix(m) == [PieceChar(Man(Black, m.promo.value))]
  {
  }

  /** Files are lettered from White's left, ranks numbered from White's side. */
  lemma SquaresAreNamed()
    ensures SquareName(A1) == "a1" && SquareName(H1) == "h1" && SquareName(A8) == "a8" && SquareName(H8) == "h8"
    ensures forall s: Square :: s < 56 ==> SquareName(s + 8) == [SquareName(s)[0], (SquareName(s)[1] as int + 1) as char]
    ensures forall s: Square :: File(s) < 7 ==> SquareName(s + 1) == [(SquareName(s)[0] as int + 1) as char, SquareName(s)[1]]
  {
  }

  /** Moves are stored origin first: White's king pawn, and a promotion. */
  lemma StoredMovesNamed()
    ensures ToUci(E4) == "e2e4"
    ensures ToUci(Move(52, 60, PROMOTION, Some(Queen))) == "e7e8q"
    ensures ToUci(Move(52, 60, PROMOTION, Some(Knight))) == "e7e8n"
  {
    assert SquareName(12) == "e2" && SquareName(28) == "e4" && SquareName(52) == "e7" && SquareName(60) == "e8";
  }

  // ---------------------------------------------------------------- the castling field

  /** Each right has the letter of the king or queen it castles towards, capital for White. */
  lemma CastlingLettersMean(r: Rights)
    ensures PieceChar(Man(White, King)) in CastlingText(r) <==> r.wk
    ensures PieceChar(Man(White, Queen)) in CastlingText(r) <==> r.wq
    ensures PieceChar(Man(Black, King)) in CastlingText(r) <==> r.bk
    ensures PieceChar(Man(Black, Queen)) in CastlingText(r) <==> r.bq
    ensures '-' in CastlingText(r) <==> r == NO_RIGHTS
  {
  }

  // ---------------------------------------------------------------- algebraic notation

  lemma SquareNameLetters(s: Square)
    ensures forall c :: c in SquareName(s) ==> 'a' <= c <= 'h' || '1' <= c <= '8'
  {
  }

  lemma MiddleLetters(k: Kind, from: Square, needFile: bool, needRank: bool, capture: bool, c: char)
    ensures c in Middle(k, from, needFile, needRank, capture) ==> 'a' <= c <= 'h' || '1' <= c <= '8' || (c == 'x' && capture)
    ensures 'x' in Middle(k, from, needFile, needRank, capture) <==> capture
  {
  }

  lemma PromotionTextLetters(m: Move, c: char)
    ensures c in PromotionText(m) ==> c == '=' || c in "PNBRQK"
    ensures '=' in PromotionText(m) <==> m.flags.promotion && m.promo.Some?
  {
  }

  lemma SignLetters(q: Position, c: char)
    ensures c in CheckSign(q) ==> c == '+' || c == '#'
  {
    hide InCheck, Legal;
  }

  /** A move that does not castle is written with its letter, an x exactly when a man is lost, and an = exactly when it promotes. */
  lemma SanLetters(p: Position, m: Move)
    requires Inv(p) && Legal(p, m) && !m.flags.kingside && !m.flags.queenside
    ensures p.squares[m.from].Man?
    ensures var t, k := SanText(p, m), p.squares[m.from].kind;
      && t != ""
      && (if k == Pawn then 'a' <= t[0] <= 'h' else t[0] == Capital(k))
      && ('x' in t <==> Men(Apply(p, m))[Empty] > Men(p)[Empty])
      && ('=' in t <==> m.flags.promotion)
  {
    hide Inv, Legal, InCheck, Apply, Men, Middle, PromotionText, CheckSign, NeedFile, NeedRank, Shape, Playable;
    LegalMoveIsPlayable(p, m);
    PlayableMan(p, m);
    var k := p.squares[m.from].kind;
    var capture := IsCapture(p, m);
    var mid := Middle(k, m.from, NeedFile(p, m), NeedRank(p, m), capture);
    var sign := CheckSign(Apply(p, m));
    assert SanText(p, m) == Letter(k) + mid + SquareName(m.to) + PromotionText(m) + sign;
    SameLetters(k);
    FirstLetter(k, m.from, NeedFile(p, m), NeedRank(p, m), capture, m.to, PromotionText(m) + sign);
    assert SanText(p, m) == Letter(k) + mid + SquareName(m.to) + (PromotionText(m) + sign);
    Marks(k, m, NeedFile(p, m), NeedRank(p, m), capture, Apply(p, m));
    EmptySquaresAfter(p, m);
  }

  lemma PlayableMan(p: Position, m: Move)
    requires Playable(p, m) && Shape(p, m)
    ensures p.squares[m.from].Man? && (m.flags.promotion ==> m.promo.Some?)
  {
  }

  lemma FirstLetter(k: Kind, from: Square, needFile: bool, needRank: bool, capture: bool, to: Square, rest: string)
    ensures var t := Letter(k) + Middle(k, from, needFile, needRank, capture) + SquareName(to) + rest;
      t != "" && if k == Pawn then 'a' <= t[0] <= 'h' else t[0] == Capital(k)
  {
  }

  lemma Marks(k: Kind, m: Move, needFile: bool, needRank: bool, capture: bool, q: Position)
    ensures var t := Letter(k) + Middle(k, m.from, needFile, needRank, capture) + SquareName(m.to) + PromotionText(m) + CheckSign(q);
      && ('x' in t <==> capture)
      && ('=' in t <==> m.flags.promotion && m.promo.Some?)
  {
    hide Middle, PromotionText, CheckSign, SquareName;
    forall c | c == 'x' || c == '='
      ensures c !in SquareName(m.to) && c !in CheckSign(q) && c !in Letter(k)
    {
      SquareNameLetters(m.to);
      SignLetters(q, c);
      SameLetters(k);
    }
    MiddleLetters(k, m.from, needFile, needRank, capture, '=');
    MiddleLetters(k, m.from, needFile, needRank, capture, 'x');
    PromotionTextLetters(m, 'x');
    PromotionTextLetters(m, '=');
  }

  /** The board has one more empty square exactly after a capture, en passant included. */
  lemma EmptySquaresAfter(p: Position, m: Move)
    requires Inv(p) && Legal(p, m)
    ensures Men(Apply(p, m))[Empty] > Men(p)[Empty] <==> IsCapture(p, m)
  {
    hide Inv, Legal, Apply, Men, Lost, PromotedMan;
    MenAfter(p, m);
    LostIs(p, m);
    PromotesPawn(p, m);
    PromotedIsMan(p, m);
  }

  lemma PromotedIsMan(p: Position, m: Move)
    ensures PromotedMan(p, m) != Empty
  {
  }

  /** Castling is written by the side the king goes to, without a sign. */
  lemma SanCastling(p: Position, m: Move)
    requires Inv(p) && Legal(p, m) && (m.flags.kingside || m.flags.queenside)
    ensures SanText(p, m) == if File(m.to) == 6 then "O-O" else "O-O-O"
    ensures p.squares[m.from] == Man(p.side, King) && Abs(File(m.to) - File(m.from)) == 2
  {
    hide Inv, Legal;
    CastlingAfter(p, m);
  }

  /** After the equals sign comes the letter of the man the pawn becomes. */
  lemma PromotionLetter(m: Move)
    requires m.flags.promotion && PromotionKind(m.promo)
    ensures PromotionText(m) == ['=', Capital(m.promo.value)]
  {
  }

  /**
   The last sign says what the move does to the other king: a hash exactly when it could be
   taken were the turn passed and there is no legal reply, a plus when there is one, and
   neither when it could not.
   */
  lemma SanSign(p: Position, m: Move)
    requires Inv(p) && Legal(p, m) && !m.flags.kingside && !m.flags.queenside
    ensures var t, q := SanText(p, m), Apply(p, m);
      var replies := exists r: Move :: Legal(q, r);
      && t != ""
      && (t[|t| - 1] == '#' <==> KingCouldBeTaken(q) && !replies)
      && (t[|t| - 1] == '+' <==> KingCouldBeTaken(q) && replies)
  {
    hide Inv, Legal, InCheck, Apply, Middle, PromotionText, NeedFile, NeedRank, Shape, Playable, KingCouldBeTaken;
    LegalMoveIsPlayable(p, m);
    PlayableMan(p, m);
    LegalMoveKeepsInvariant(p, m);
    CheckMeansTakeable(Apply(p, m));
    var k := p.squares[m.from].kind;
    LastOfBody(k, m, NeedFile(p, m), NeedRank(p, m), IsCapture(p, m));
  }

  lemma LastOfBody(k: Kind, m: Move, needFile: bool, needRank: bool, capture: bool)
    ensures var t := Body(k, m, needFile, needRank, capture);
      t != "" && t[|t| - 1] != '+' && t[|t| - 1] != '#'
  {
    SquareNameLetters(m.to);
    if m.promo.Some? {
      SameLetters(m.promo.value);
    }
    hide Middle, SquareName;
    var t := Body(k, m, needFile, needRank, capture);
    if PromotionText(m) == "" {
      assert t[|t| - 1] == SquareName(m.to)[1];
      assert SquareName(m.to)[1] in SquareName(m.to);
    } else {
      assert t[|t| - 1] == PromotionText(m)[|PromotionText(m)| - 1];
    }
  }

  // ---------------------------------------------------------------- the examples of section 16.1

  const E4 := Move(12, 28, DOUBLE_PAWN_PUSH, None)
  const C5 := Move(50, 34, DOUBLE_PAWN_PUSH, None)
  const NF3 := Move(6, 21, PLAIN, None)

  /** The array with the white king pawn, Black's queen bishop pawn and the king knight moved or not. */
  function Piece3(x: Square, e4: bool, c5: bool, nf3: bool): Piece {
    if e4 && x == 12 then Empty else if e4 && x == 28 then Man(White, Pawn)
    else if c5 && x == 50 then Empty else if c5 && x == 34 then Man(Black, Pawn)
    else if nf3 && x == 6 then Empty else if nf3 && x == 21 then Man(White, Knight)
    else StartPiece(x)
  }

  predicate Looks(b: Placement, e4: bool, c5: bool, nf3: bool) {
    forall x: Square :: b[x] == Piece3(x, e4, c5, nf3)
  }

  /** Men on the files from `f` to `g` print their letters. */
  lemma {:induction false} FullRun(b: Placement, r: int, f: nat, g: nat, t: string)
    requires 0 <= r < 8 && f <= g <= 8 && |t| == g - f
    requires forall i :: f <= i < g ==> b[At(r, i)] != Empty && PieceChar(b[At(r, i)]) == t[i - f]
    ensures RankText(b, r, f, 0) == t + RankText(b, r, g, 0)
    decreases g - f
  {
    hide PieceChar, RankText, At;
    if f < g {
      FullRun(b, r, f + 1, g, t[1..]);
      assert b[At(r, f)] != Empty && PieceChar(b[At(r, f)]) == t[f - f];
      ManHere(b, r, f, t[0]);
      assert t == [t[0]] + t[1..];
    } else {
      assert t == "";
    }
  }

  lemma ManHere(b: Placement, r: int, f: nat, c: char)
    requires 0 <= r < 8 && f < 8 && b[At(r, f)] != Empty && PieceChar(b[At(r, f)]) == c
    ensures RankText(b, r, f, 0) == [c] + RankText(b, r, f + 1, 0)
  {
    assert Run(0) == "";
  }

  lemma {:induction false} EmptyRun(b: Placement, r: int, f: nat, g: nat, empty: nat)
    requires 0 <= r < 8 && f <= g <= 8
    requires forall i :: f <= i < g ==> b[At(r, i)] == Empty
    ensures RankText(b, r, f, empty) == RankText(b, r, g, empty + g - f)
    decreases g - f
  {
    hide RankText, At;
    if f < g {
      EmptyRun(b, r, f + 1, g, empty + 1);
      NobodyHere(b, r, f, empty);
    }
  }

  lemma NobodyHere(b: Placement, r: int, f: nat, empty: nat)
    requires 0 <= r < 8 && f < 8 && b[At(r, f)] == Empty
    ensures RankText(b, r, f, empty) == RankText(b, r, f + 1, empty + 1)
  {
  }

  /** A man behind `empty` empty squares prints their number first. */
  lemma ManAfterRun(b: Placement, r: int, f: nat, empty: nat)
    requires 0 <= r < 8 && f < 8 && b[At(r, f)] != Empty
    ensures RankText(b, r, f, empty) == Run(empty) + [PieceChar(b[At(r, f)])] + RankText(b, r, f + 1, 0)
  {
  }

  lemma Runs()
    ensures Run(0) == "" && Run(1) == "1" && Run(2) == "2" && Run(3) == "3" && Run(4) == "4" && Run(5) == "5" && Run(8) == "8"
  {
  }

  /** One man alone on a rank. */
  lemma OneOnRank(b: Placement, r: int, f: nat, c: char)
    requires 0 <= r < 8 && f < 8 && b[At(r, f)] != Empty && PieceChar(b[At(r, f)]) == c
    requires forall i :: 0 <= i < 8 && i != f ==> b[At(r, i)] == Empty
    ensures RankText(b, r, 0, 0) == Run(f) + [c] + Run(7 - f)
  {
    hide RankText, PieceChar;
    EmptyRun(b, r, 0, f, 0);
    ManAfterRun(b, r, f, f);
    EmptyRun(b, r, f + 1, 8, 0);
    RankTextEnd(b, r, 7 - f);
  }

  /** A full rank with a hole on file `f`. */
  lemma OneMissing(b: Placement, r: int, f: nat, t: string)
    requires 0 <= r < 8 && f < 7 && |t| == 8 && b[At(r, f)] == Empty
    requires forall i :: 0 <= i < 8 && i != f ==> b[At(r, i)] != Empty && PieceChar(b[At(r, i)]) == t[i]
    ensures RankText(b, r, 0, 0) == t[..f] + "1" + t[f + 1..]
  {
    hide RankText, PieceChar;
    FullRun(b, r, 0, f, t[..f]);
    EmptyRun(b, r, f, f + 1, 0);
    ManAfterRun(b, r, f + 1, 1);
    FullRun(b, r, f + 2, 8, t[f + 2..]);
    RankTextEnd(b, r, 0);
    Runs();
    assert t[f + 1..] == [t[f + 1]] + t[f + 2..];
  }

  lemma EmptyRankText(b: Placement, r: int)
    requires 0 <= r < 8 && forall i :: 0 <= i < 8 ==> b[At(r, i)] == Empty
    ensures RankText(b, r, 0, 0) == "8"
  {
    hide RankText;
    EmptyRun(b, r, 0, 8, 0);
    RankTextEnd(b, r, 8);
    Runs();
  }

  lemma FullRankText(b: Placement, r: int, t: string)
    requires 0 <= r < 8 && |t| == 8
    requires forall i :: 0 <= i < 8 ==> b[At(r, i)] != Empty && PieceChar(b[At(r, i)]) == t[i]
    ensures RankText(b, r, 0, 0) == t
  {
    hide RankText, PieceChar;
    FullRun(b, r, 0, 8, t);
    RankTextEnd(b, r, 0);
    Runs();
  }

  lemma HomeMen(b: Placement, e4: bool, c5: bool, nf3: bool, i: int)
    requires Looks(b, e4, c5, nf3) && 0 <= i < 8
    ensures b[At(7, i)] == HomeRow(Black)[i] && HomeRow(Black)[i].Man? && HomeRow(White)[i].Man?
    ensures b[At(0, i)] == if nf3 && i == 6 then Empty else HomeRow(White)[i]
  {
    hide HomeRow;
    HomePiece(White, i);
    HomePiece(Black, i);
  }

  lemma HomePiece(c: Color, i: int)
    requires 0 <= i < 8
    ensures StartPiece(At(if c == White then 0 else 7, i)) == HomeRow(c)[i] && HomeRow(c)[i].Man?
  {
  }

  predicate HomeRowsHold(b: Placement, nf3: bool) {
    forall i :: 0 <= i < 8 ==>
      b[At(7, i)] == HomeRow(Black)[i] && b[At(0, i)] == if nf3 && i == 6 then Empty else HomeRow(White)[i]
  }

  lemma HomeRowsStand(b: Placement, e4: bool, c5: bool, nf3: bool)
    requires Looks(b, e4, c5, nf3)
    ensures HomeRowsHold(b, nf3)
  {
    hide Looks, At;
    forall i | 0 <= i < 8
      ensures b[At(7, i)] == HomeRow(Black)[i] && b[At(0, i)] == if nf3 && i == 6 then Empty else HomeRow(White)[i]
    {
      HomeMen(b, e4, c5, nf3, i);
    }
  }

  lemma HomeRanks(b: Placement, nf3: bool)
    requires HomeRowsHold(b, nf3)
    ensures RankText(b, 7, 0, 0) == "rnbqkbnr"
    ensures RankText(b, 0, 0, 0) == if nf3 then "RNBQKB1R" else "RNBQKBNR"
  {
    hide RankText, PieceChar, HomeRow, At;
    forall i | 0 <= i < 8
      ensures b[At(7, i)] != Empty && PieceChar(b[At(7, i)]) == "rnbqkbnr"[i]
      ensures nf3 && i == 6 ==> b[At(0, i)] == Empty
      ensures !(nf3 && i == 6) ==> b[At(0, i)] != Empty && PieceChar(b[At(0, i)]) == "RNBQKBNR"[i]
    {
      HomeLetter(White, i);
      HomeLetter(Black, i);
      HomePiece(White, i);
      HomePiece(Black, i);
    }
    FullRankText(b, 7, "rnbqkbnr");
    if nf3 {
      OneMissing(b, 0, 6, "RNBQKBNR");
    } else {
      FullRankText(b, 0, "RNBQKBNR");
    }
  }

  lemma PawnMen(b: Placement, e4: bool, c5: bool, nf3: bool, i: int)
    requires Looks(b, e4, c5, nf3) && 0 <= i < 8
    ensures b[At(6, i)] == if c5 && i == 2 then Empty else Man(Black, Pawn)
    ensures b[At(1, i)] == if e4 && i == 4 then Empty else Man(White, Pawn)
  {
  }

  lemma PawnRanks(b: Placement, e4: bool, c5: bool, nf3: bool)
    requires Looks(b, e4, c5, nf3)
    ensures RankText(b, 6, 0, 0) == if c5 then "pp1ppppp" else "pppppppp"
    ensures RankText(b, 1, 0, 0) == if e4 then "PPPP1PPP" else "PPPPPPPP"
  {
    hide RankText, Looks, At;
    forall i | 0 <= i < 8
      ensures b[At(6, i)] == if c5 && i == 2 then Empty else Man(Black, Pawn)
      ensures b[At(1, i)] == if e4 && i == 4 then Empty else Man(White, Pawn)
    {
      PawnMen(b, e4, c5, nf3, i);
    }
    if c5 {
      OneMissing(b, 6, 2, "pppppppp");
    } else {
      FullRankText(b, 6, "pppppppp");
    }
    if e4 {
      OneMissing(b, 1, 4, "PPPPPPPP");
    } else {
      FullRankText(b, 1, "PPPPPPPP");
    }
  }

  lemma MiddleRanks(b: Placement, e4: bool, c5: bool, nf3: bool)
    requires Looks(b, e4, c5, nf3)
    ensures RankText(b, 5, 0, 0) == "8"
    ensures RankText(b, 4, 0, 0) == if c5 then "2p5" else "8"
    ensures RankText(b, 3, 0, 0) == if e4 then "4P3" else "8"
    ensures RankText(b, 2, 0, 0) == if nf3 then "5N2" else "8"
  {
    hide RankText;
    forall r, i | 2 <= r < 6 && 0 <= i < 8
      ensures b[At(r, i)] ==
        if e4 && r == 3 && i == 4 then Man(White, Pawn) else if c5 && r == 4 && i == 2 then Man(Black, Pawn)
        else if nf3 && r == 2 && i == 5 then Man(White, Knight) else Empty
    {
      assert b[At(r, i)] == Piece3(At(r, i), e4, c5, nf3);
    }
    Runs();
    EmptyRankText(b, 5);
    if c5 { OneOnRank(b, 4, 2, 'p'); } else { EmptyRankText(b, 4); }
    if e4 { OneOnRank(b, 3, 4, 'P'); } else { EmptyRankText(b, 3); }
    if nf3 { OneOnRank(b, 2, 5, 'N'); } else { EmptyRankText(b, 2); }
  }

  function Diagram(e4: bool, c5: bool, nf3: bool): string {
    "rnbqkbnr" + ("/" + ((if c5 then "pp1ppppp" else "pppppppp") + ("/" + ("8" + ("/" + ((if c5 then "2p5" else "8")
    + ("/" + ((if e4 then "4P3" else "8") + ("/" + ((if nf3 then "5N2" else "8") + ("/" + ((if e4 then "PPPP1PPP" else "PPPPPPPP")
    + ("/" + (if nf3 then "RNBQKB1R" else "RNBQKBNR"))))))))))))))
  }

  lemma DiagramIs(b: Placement, e4: bool, c5: bool, nf3: bool)
    requires Looks(b, e4, c5, nf3)
    ensures PlacementText(b, 7) == Diagram(e4, c5, nf3)
  {
    hide RankText, Looks, PlacementText, HomeRowsHold;
    HomeRowsStand(b, e4, c5, nf3);
    HomeRanks(b, nf3);
    PawnRanks(b, e4, c5, nf3);
    MiddleRanks(b, e4, c5, nf3);
    LastPlacement(b);
    PlacementStep(b, 1);
    PlacementStep(b, 2);
    PlacementStep(b, 3);
    PlacementStep(b, 4);
    PlacementStep(b, 5);
    PlacementStep(b, 6);
    PlacementStep(b, 7);
  }

  lemma ThreeMoves()
    ensures var q1 := Apply(START, E4);
      var q2 := Apply(q1, C5);
      var q3 := Apply(q2, NF3);
      && Looks(q1.squares, true, false, false) && Looks(q2.squares, true, true, false) && Looks(q3.squares, true, true, true)
      && q1 == Position(q1.squares, Black, START.rights, Some(20), 0, 1)
      && q2 == Position(q2.squares, White, START.rights, Some(42), 0, 2)
      && q3 == Position(q3.squares, Black, START.rights, None, 1, 2)
  {
    hide Apply, StartPiece, Looks;
    OpeningSquaresHold();
    StartLooks();
    var q1 := Apply(START, E4);
    SimpleMove(START, E4);
    LooksAfterE4(START.squares, q1.squares);
    var q2 := Apply(q1, C5);
    SimpleMove(q1, C5);
    LooksAfterC5(q1.squares, q2.squares);
    SimpleMove(q2, NF3);
    LooksAfterNf3(q2.squares, Apply(q2, NF3).squares);
  }

  lemma StartLooks()
    ensures Looks(START.squares, false, false, false)
  {
  }

  /** A move without any special flag, or a pawn's two-step, between an own man and an empty square. */
  lemma SimpleMove(p: Position, m: Move)
    requires m.flags == PLAIN || m.flags == DOUBLE_PAWN_PUSH
    requires p.squares[m.from].Man? && p.squares[m.from].color == p.side && p.squares[m.to] == Empty
    requires OnBoard(Rank(m.to) - Forward(p.side), File(m.to)) && m.from !in {A1, E1, H1, A8, E8, H8} && m.to !in {A1, E1, H1, A8, E8, H8}
    ensures Apply(p, m) == Position(
      p.squares[m.to := p.squares[m.from]][m.from := Empty], Opposite(p.side), p.rights,
      if m.flags.doublePush then Some(At(Rank(m.to) - Forward(p.side), File(m.to))) else None,
      if p.squares[m.from].kind == Pawn then 0 else p.halfmove + 1,
      if p.side == Black then p.fullmove + 1 else p.fullmove)
  {
  }

  lemma LooksAfterE4(b: Placement, d: Placement)
    requires Looks(b, false, false, false) && d == b[28 := b[12]][12 := Empty] && StartPiece(12) == Man(White, Pawn)
    ensures Looks(d, true, false, false) && d[50] == StartPiece(50) && d[34] == StartPiece(34)
  {
    hide StartPiece;
  }

  lemma LooksAfterC5(b: Placement, d: Placement)
    requires Looks(b, true, false, false) && d == b[34 := b[50]][50 := Empty] && StartPiece(50) == Man(Black, Pawn)
    ensures Looks(d, true, true, false) && d[6] == StartPiece(6) && d[21] == StartPiece(21)
  {
    hide StartPiece;
  }

  lemma LooksAfterNf3(b: Placement, d: Placement)
    requires Looks(b, true, true, false) && d == b[21 := b[6]][6 := Empty] && StartPiece(6) == Man(White, Knight)
    ensures Looks(d, true, true, true)
  {
    hide StartPiece;
  }

  lemma OpeningSquaresHold()
    ensures StartPiece(12) == Man(White, Pawn) && StartPiece(28) == Empty
    ensures StartPiece(50) == Man(Black, Pawn) && StartPiece(34) == Empty
    ensures StartPiece(6) == Man(White, Knight) && StartPiece(21) == Empty
    ensures START.squares[12] == StartPiece(12) && START.squares[28] == StartPiece(28)
  {
  }

  lemma Targets()
    ensures EnPassantText(Some(20)) == "e3" && EnPassantText(Some(42)) == "c6" && EnPassantText(None) == "-"
    ensures IntText(0) == "0" && IntText(1) == "1" && IntText(2) == "2"
  {
  }

  /** The three records the standard gives for 1. e4 c5 2. Nf3, printed from the array by making the moves. */
  lemma StandardExamples()
    ensures var q1 := Apply(START, E4);
      var q2 := Apply(q1, C5);
      var q3 := Apply(q2, NF3);
      && ToFen(q1) == Diagram(true, false, false) + " " + "b" + " " + "KQkq" + " " + "e3" + " " + "0" + " " + "1"
      && ToFen(q2) == Diagram(true, true, false) + " " + "w" + " " + "KQkq" + " " + "c6" + " " + "0" + " " + "2"
      && ToFen(q3) == Diagram(true, true, true) + " " + "b" + " " + "KQkq" + " " + "-" + " " + "1" + " " + "2"
  {
    hide Apply, PlacementText, Diagram, CastlingText, EnPassantText, IntText, Looks;
    ThreeMoves();
    DiagramIs(Apply(START, E4).squares, true, false, false);
    DiagramIs(Apply(Apply(START, E4), C5).squares, true, true, false);
    DiagramIs(Apply(Apply(Apply(START, E4), C5), NF3).squares, true, true, true);
    StartCastlingText();
    Targets();
  }
}
