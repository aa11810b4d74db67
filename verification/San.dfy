/** Standard algebraic notation: printing a legal move and finding it again from the text. */
module San {
  import opened Types
  import opened Rules
  import opened Reversal
  import opened Invariant
  import opened Text
  import opened BoardState
  import opened MoveGen

  // ---------------------------------------------------------------- printing

  /** The piece letter; pawns have none. */
  function Letter(k: Kind): string {
    match k
    case Pawn => ""
    case Knight => "N"
    case Bishop => "B"
    case Rook => "R"
    case Queen => "Q"
    case King => "K"
  }

  predicate IsCapture(p: Position, m: Move) {
    p.squares[m.to].Man? || m.flags.enPassant
  }

  /** Another man of the same kind that may legally go to the same square. */
  ghost predicate Rival(p: Position, m: Move, o: Move) {
    && Legal(p, o) && o.from != m.from && o.to == m.to
    && p.squares[o.from].Man? && p.squares[m.from].Man? && p.squares[o.from].kind == p.squares[m.from].kind
  }

  ghost predicate NeedFile(p: Position, m: Move) {
    exists o: Move :: Rival(p, m, o) && File(o.from) != File(m.from)
  }

  ghost predicate NeedRank(p: Position, m: Move) {
    exists o: Move :: Rival(p, m, o) && File(o.from) == File(m.from)
  }

  /** Disambiguation and capture sign. */
  function Middle(k: Kind, from: Square, needFile: bool, needRank: bool, capture: bool): string {
    (if (if k == Pawn then capture else needFile) then [FileChar(File(from))] else "")
    + (if k != Pawn && needRank then [RankChar(Rank(from))] else "")
    + (if capture then "x" else "")
  }

  function PromotionText(m: Move): string {
    if m.flags.promotion && m.promo.Some? then "=" + Letter(m.promo.value) else ""
  }

  /** The text before any check sign. */
  function Body(k: Kind, m: Move, needFile: bool, needRank: bool, capture: bool): string {
    Letter(k) + Middle(k, m.from, needFile, needRank, capture) + SquareName(m.to) + PromotionText(m)
  }

  ghost function CheckSign(q: Position): string {
    if !InCheck(q.squares, q.side) then ""
    else if exists r: Move :: Legal(q, r) then "+" else "#"
  }

  /** The text of a move of the side to move. */
  ghost function SanText(p: Position, m: Move): string {
    if m.flags.kingside then "O-O"
    else if m.flags.queenside then "O-O-O"
    else if p.squares[m.from].Man? then
      Body(p.squares[m.from].kind, m, NeedFile(p, m), NeedRank(p, m), IsCapture(p, m)) + CheckSign(Apply(p, m))
    else ""
  }

  lemma LegalMoveIsPlayable(p: Position, m: Move)
    requires Inv(p) && Legal(p, m)
    ensures Shape(p, m) && Playable(p, m) && Own(p.squares, m.from, p.side)
  {
    PseudoLegalShape(p, m);
    ShapeIsPlayable(p, m);
  }

  method MoveToSan(b: Board, m: Move) returns (san: string)
    requires b.Valid() && Inv(b.View()) && Legal(b.View(), m)
    ensures san == SanText(b.View(), m)
  {
    hide PseudoLegal, InCheck, Apply, Inv, NeedFile, NeedRank, CheckSign, Playable, Shape;
    ghost var p := b.View();
    LegalMoveIsPlayable(p, m);
    if m.flags.kingside {
      return "O-O";
    }
    if m.flags.queenside {
      return "O-O-O";
    }
    assert p.squares[m.from] == b.squares[m.from] && p.squares[m.to] == b.squares[m.to];
    var moving := b.squares[m.from];
    var capture := b.squares[m.to].Man? || m.flags.enPassant;
    san := "";
    ghost var needFileSpec, needRankSpec := NeedFile(p, m), NeedRank(p, m);
    if moving.kind != Pawn {
      san := san + Letter(moving.kind);
      var needFile, needRank := Disambiguate(b, m);
      if needFile {
        san := san + [FileChar(File(m.from))];
      }
      if needRank {
        san := san + [RankChar(Rank(m.from))];
      }
      assert san + (if capture then "x" else "") ==
        Letter(moving.kind) + Middle(moving.kind, m.from, needFile, needRank, capture);
    } else if capture {
      san := san + [FileChar(File(m.from))];
    }
    if capture {
      san := san + "x";
    }
    assert san == Letter(moving.kind) + Middle(moving.kind, m.from, needFileSpec, needRankSpec, capture);
    san := san + SquareName(m.to);
    san := san + PromotionText(m);
    assert san == Body(moving.kind, m, needFileSpec, needRankSpec, capture);
    var sign := CheckSignAfter(b, m);
    san := san + sign;
  }

  /** Which coordinates tell the mover from its rivals. */
  method Disambiguate(b: Board, m: Move) returns (needFile: bool, needRank: bool)
    requires b.Valid() && Inv(b.View()) && Legal(b.View(), m) && b.squares[m.from].Man?
    ensures needFile <==> NeedFile(b.View(), m)
    ensures needRank <==> NeedRank(b.View(), m)
  {
    hide PseudoLegal, InCheck, Apply, Inv;
    ghost var p := b.View();
    var legal := GenerateLegalMoves(b);
    needFile, needRank := false, false;
    for i := 0 to |legal|
      invariant needFile <==> exists j :: 0 <= j < i && Rival(p, m, legal[j]) && File(legal[j].from) != File(m.from)
      invariant needRank <==> exists j :: 0 <= j < i && Rival(p, m, legal[j]) && File(legal[j].from) == File(m.from)
    {
      var o := legal[i];
      assert o in legal;
      assert Rival(p, m, o) <==>
        o.from != m.from && o.to == m.to && p.squares[o.from].Man? && p.squares[o.from].kind == p.squares[m.from].kind;
      assert p.squares[o.from] == b.squares[o.from] && p.squares[m.from] == b.squares[m.from];
      if o.from != m.from && o.to == m.to && b.squares[o.from].Man? && b.squares[o.from].kind == b.squares[m.from].kind {
        if File(o.from) == File(m.from) {
          needRank := true;
        } else {
          needFile := true;
        }
      }
    }
    if o: Move :| Rival(p, m, o) {
      assert o in legal;
    }
  }

  /** Plays the move on a copy to see whether it checks or mates. */
  method CheckSignAfter(b: Board, m: Move) returns (sign: string)
    requires b.Valid() && Inv(b.View()) && Legal(b.View(), m) && Playable(b.View(), m)
    ensures sign == CheckSign(Apply(b.View(), m))
  {
    hide PseudoLegal, InCheck, Playable;
    ghost var q := Apply(b.View(), m);
    LegalMoveKeepsInvariant(b.View(), m);
    var after := new Board.Copy(b);
    var opponent := Opposite(b.side);
    var undo := after.MakeMove(m);
    var check := IsInCheck(after, opponent);
    if !check {
      return "";
    }
    var replies := GenerateLegalMoves(after);
    assert forall r: Move :: Legal(q, r) ==> r in replies;
    if replies == [] {
      return "#";
    }
    assert replies[0] in replies;
    return "+";
  }

  // ---------------------------------------------------------------- parsing

  /** What a SAN text asks for. */
  datatype Query =
    | Unreadable
    | Castle(kingside: bool)
    | Find(kind: Kind, promo: Option<Kind>, to: Square, file: Option<int>, rank: Option<int>)

  predicate IsMark(c: char) {
    c == '+' || c == '#' || c == '!' || c == '?'
  }

  function StripMarks(s: string): string {
    if s != "" && IsMark(s[|s| - 1]) then StripMarks(s[..|s| - 1]) else s
  }

  function LetterKind(c: char): Option<Kind> {
    match c
    case 'N' => Some(Knight)
    case 'B' => Some(Bishop)
    case 'R' => Some(Rook)
    case 'Q' => Some(Queen)
    case 'K' => Some(King)
    case _ => None
  }

  /** The last file letter of a text. */
  function LastFileLetter(t: string): Option<int> {
    if t == "" then None
    else if 0 <= FileIndex(t[|t| - 1]) < 8 then Some(FileIndex(t[|t| - 1]))
    else LastFileLetter(t[..|t| - 1])
  }

  /** The last rank digit of a text. */
  function LastRankDigit(t: string): Option<int> {
    if t == "" then None
    else if 0 <= RankIndex(t[|t| - 1]) < 8 then Some(RankIndex(t[|t| - 1]))
    else LastRankDigit(t[..|t| - 1])
  }

  predicate NamesPiece(s: string) {
    s != "" && IsUpper(s[0]) && s[0] != 'O'
  }

  /** The text after the piece letter and before the promotion, of the given kind. */
  function ParseTarget(k: Kind, promo: Option<Kind>, s: string): Query {
    if |s| < 2 then Unreadable else
      var to := SquareOf(s[|s| - 2..]);
      if to == None then Unreadable
      else Find(k, promo, to.value, LastFileLetter(s[..|s| - 2]), LastRankDigit(s[..|s| - 2]))
  }

  /** The text with marks and piece letter gone. */
  function ParseRest(k: Kind, s: string): Query {
    if |s| >= 2 && s[|s| - 2] == '=' then
      var promo := LetterKind(s[|s| - 1]);
      if promo == None || promo == Some(King) then Unreadable
      else ParseTarget(k, promo, s[..|s| - 2])
    else
      ParseTarget(k, None, s)
  }

  function ParseSan(san: string): Query {
    if san == "O-O" || san == "O-O+" || san == "O-O#" then Castle(true)
    else if san == "O-O-O" || san == "O-O-O+" || san == "O-O-O#" then Castle(false)
    else
      var s := StripMarks(san);
      if NamesPiece(s) then
        (var k := LetterKind(s[0]);
         if k == None then Unreadable else ParseRest(k.value, s[1..]))
      else ParseRest(Pawn, s)
  }

  /** A legal move the query describes. */
  ghost predicate Fits(p: Position, q: Query, m: Move)
    requires q.Find?
  {
    && Legal(p, m) && m.to == q.to
    && p.squares[m.from].Man? && p.squares[m.from].kind == q.kind
    && (q.file.Some? ==> File(m.from) == q.file.value)
    && (q.rank.Some? ==> Rank(m.from) == q.rank.value)
    && (if q.promo.Some? then m.flags.promotion && m.promo == q.promo else !m.flags.promotion)
  }

  /** The fallback: a pawn text without promotion that reaches the last rank means a queen. */
  ghost predicate FitsAsQueen(p: Position, q: Query, m: Move)
    requires q.Find?
  {
    && q.promo == None && q.kind == Pawn && Rank(q.to) == LastRank(p.side)
    && Legal(p, m) && m.to == q.to
    && p.squares[m.from].Man? && p.squares[m.from].kind == Pawn
    && (q.file.Some? ==> File(m.from) == q.file.value)
    && m.flags.promotion && m.promo == Some(Queen)
  }

  function CastlingMove(king: Square, kingside: bool): Move {
    if kingside then Move(king, At(Rank(king), 6), KINGSIDE_CASTLE, None)
    else Move(king, At(Rank(king), 2), QUEENSIDE_CASTLE, None)
  }

  /** What parsing may return: the first fitting move of the list, whichever that is. */
  ghost predicate Denotes(p: Position, q: Query, m: Move) {
    match q
    case Unreadable => m == NO_MOVE
    case Castle(kingside) => FindKing(p.squares, p.side) < 64 && m == CastlingMove(FindKing(p.squares, p.side), kingside)
    case Find(_, _, _, _, _) =>
      if exists o: Move :: Fits(p, q, o) then Fits(p, q, m)
      else if exists o: Move :: FitsAsQueen(p, q, o) then FitsAsQueen(p, q, m)
      else m == NO_MOVE
  }

  /** Popping check and annotation marks off the end. */
  method DropMarks(san: string) returns (s: string)
    ensures s == StripMarks(san)
  {
    s := san;
    while s != "" && IsMark(s[|s| - 1])
      invariant StripMarks(san) == StripMarks(s)
      decreases |s|
    {
      s := s[..|s| - 1];
    }
  }

  /** The disambiguation scan: capture signs are erased, the last file and rank win. */
  method ScanMiddle(middle: string) returns (file: Option<int>, rank: Option<int>)
    ensures file == LastFileLetter(middle) && rank == LastRankDigit(middle)
  {
    file, rank := None, None;
    for i := 0 to |middle|
      invariant file == LastFileLetter(middle[..i]) && rank == LastRankDigit(middle[..i])
    {
      var c := middle[i];
      assert middle[..i + 1][..i] == middle[..i];
      if c != 'x' {
        if 'a' <= c <= 'h' {
          file := Some(FileIndex(c));
        } else if '1' <= c <= '8' {
          rank := Some(RankIndex(c));
        }
      }
    }
    assert middle[..|middle|] == middle;
  }

  /** The destination and what stands between the cursor and it. */
  method ReadTarget(k: Kind, promo: Option<Kind>, s: string, pos: nat) returns (q: Query)
    requires pos <= |s|
    ensures q == ParseTarget(k, promo, s[pos..])
  {
    ghost var rest := s[pos..];
    if |s| < pos + 2 {
      return Unreadable;
    }
    assert rest[|rest| - 2..] == s[|s| - 2..];
    var to := SquareOf(s[|s| - 2..]);
    if to == None {
      return Unreadable;
    }
    var middle := s[pos..|s| - 2];
    assert rest[..|rest| - 2] == middle;
    var file, rank := ScanMiddle(middle);
    q := Find(k, promo, to.value, file, rank);
  }

  method ReadRest(k: Kind, s: string, pos: nat) returns (q: Query)
    requires pos <= |s| && (pos > 0 ==> pos == 1 && s[0] != '=')
    ensures q == ParseRest(k, s[pos..])
  {
    hide ParseTarget;
    if |s| >= 2 && s[|s| - 2] == '=' {
      assert s[pos..][|s[pos..]| - 2] == '=';
      var promo := LetterKind(s[|s| - 1]);
      if promo == None || promo == Some(King) {
        return Unreadable;
      }
      assert s[..|s| - 2][pos..] == s[pos..][..|s[pos..]| - 2];
      q := ReadTarget(k, promo, s[..|s| - 2], pos);
    } else {
      q := ReadTarget(k, None, s, pos);
    }
  }

  /** Reading the text from left to right with a cursor. */
  method ReadSan(san: string) returns (q: Query)
    ensures q == ParseSan(san)
  {
    hide ParseRest;
    if san == "O-O" || san == "O-O+" || san == "O-O#" {
      return Castle(true);
    }
    if san == "O-O-O" || san == "O-O-O+" || san == "O-O-O#" {
      return Castle(false);
    }
    var s := DropMarks(san);
    if NamesPiece(s) {
      var letter := LetterKind(s[0]);
      if letter == None {
        return Unreadable;
      }
      q := ReadRest(letter.value, s, 1);
    } else {
      assert s[0..] == s;
      q := ReadRest(Pawn, s, 0);
    }
  }

  /** The first move of the legal list that passes a test given by the query. */
  method SanToMove(b: Board, san: string) returns (m: Move)
    requires b.Valid() && Inv(b.View())
    ensures Denotes(b.View(), ParseSan(san), m)
  {
    hide Inv, Legal;
    ghost var p := b.View();
    var q := ReadSan(san);
    match q
    case Unreadable =>
      m := NO_MOVE;
    case Castle(kingside) =>
      KingIsFound(p, p.side);
      var king := b.LocateKing(b.side);
      m := CastlingMove(king, kingside);
    case Find(_, _, _, _, _) =>
      m := FindFitting(b, q);
  }

  lemma KingIsFound(p: Position, c: Color)
    requires Inv(p)
    ensures FindKing(p.squares, c) < 64
  {
    var k: Square :| SoleKing(p.squares, c, k);
    SoleKingFound(p.squares, c, k);
  }

  method FindFitting(b: Board, q: Query) returns (m: Move)
    requires b.Valid() && Inv(b.View()) && q.Find?
    ensures Denotes(b.View(), q, m)
  {
    hide Inv, Legal;
    ghost var p := b.View();
    var legal := GenerateLegalMoves(b);
    for i := 0 to |legal|
      invariant forall j :: 0 <= j < i ==> !Fits(p, q, legal[j])
    {
      m := legal[i];
      assert m in legal;
      assert p.squares[m.from] == b.squares[m.from];
      if m.to == q.to && b.squares[m.from].Man? && b.squares[m.from].kind == q.kind
         && (q.file == None || File(m.from) == q.file.value)
         && (q.rank == None || Rank(m.from) == q.rank.value)
         && (if q.promo.Some? then m.flags.promotion && m.promo == q.promo else !m.flags.promotion)
      {
        assert Fits(p, q, m);
        return;
      }
    }
    assert forall o: Move :: Fits(p, q, o) ==> o in legal;
    if q.promo == None && q.kind == Pawn && Rank(q.to) == LastRank(b.side) {
      for i := 0 to |legal|
        invariant forall j :: 0 <= j < i ==> !FitsAsQueen(p, q, legal[j])
      {
        m := legal[i];
        assert m in legal;
        assert p.squares[m.from] == b.squares[m.from];
        if m.to == q.to && b.squares[m.from] == Man(b.side, Pawn)
           && (q.file == None || File(m.from) == q.file.value)
           && m.flags.promotion && m.promo == Some(Queen)
        {
          assert FitsAsQueen(p, q, m);
          return;
        }
        LegalMoverIsOwn(p, m);
      }
      assert forall o: Move :: FitsAsQueen(p, q, o) ==> o in legal;
    }
    m := NO_MOVE;
  }

  lemma LegalMoverIsOwn(p: Position, m: Move)
    requires Inv(p) && Legal(p, m)
    ensures Own(p.squares, m.from, p.side)
  {
    LegalMoveIsPlayable(p, m);
  }

  // ---------------------------------------------------------------- round trip

  /** The query a printed move reads back as. */
  function QueryOf(k: Kind, m: Move, needFile: bool, needRank: bool, capture: bool): Query {
    Find(k, if m.flags.promotion then m.promo else None, m.to,
      if (if k == Pawn then capture else needFile) then Some(File(m.from)) else None,
      if k != Pawn && needRank then Some(Rank(m.from)) else None)
  }

  lemma MiddleReadsBack(k: Kind, from: Square, needFile: bool, needRank: bool, capture: bool)
    ensures var t := Middle(k, from, needFile, needRank, capture);
      && LastFileLetter(t) == (if (if k == Pawn then capture else needFile) then Some(File(from)) else None)
      && LastRankDigit(t) == (if k != Pawn && needRank then Some(Rank(from)) else None)
  {
    hide LastFileLetter, LastRankDigit;
    var f := if (if k == Pawn then capture else needFile) then [FileChar(File(from))] else "";
    var r := if k != Pawn && needRank then [RankChar(Rank(from))] else "";
    var x := if capture then "x" else "";
    ScanSkips(f + r, x);
    ScanRank(f, r);
  }

  lemma ScanSkips(t: string, x: string)
    requires x == "" || x == "x"
    ensures LastFileLetter(t + x) == LastFileLetter(t) && LastRankDigit(t + x) == LastRankDigit(t)
  {
    if x == "" {
      assert t + x == t;
    } else {
      assert (t + x)[..|t + x| - 1] == t;
    }
  }

  lemma ScanRank(f: string, r: string)
    requires |f| <= 1 && (f != "" ==> 0 <= FileIndex(f[0]) < 8)
    requires |r| <= 1 && (r != "" ==> 0 <= RankIndex(r[0]) < 8)
    ensures LastFileLetter(f + r) == if f == "" then None else Some(FileIndex(f[0]))
    ensures LastRankDigit(f + r) == if r == "" then None else Some(RankIndex(r[0]))
  {
    assert f == "" || f[..0] == "";
    if r == "" {
      assert f + r == f;
    } else {
      assert (f + r)[..|f + r| - 1] == f;
    }
  }

  lemma TargetReadsBack(k: Kind, m: Move, promo: Option<Kind>, middle: string)
    ensures ParseTarget(k, promo, middle + SquareName(m.to))
      == Find(k, promo, m.to, LastFileLetter(middle), LastRankDigit(middle))
  {
    var s := middle + SquareName(m.to);
    assert s[|s| - 2..] == SquareName(m.to);
    assert s[..|s| - 2] == middle;
    SquareNameRoundTrip(m.to);
  }

  lemma RestReadsBack(k: Kind, m: Move, middle: string)
    requires m.flags.promotion ==> PromotionKind(m.promo)
    ensures ParseRest(k, middle + SquareName(m.to) + PromotionText(m))
      == Find(k, if m.flags.promotion then m.promo else None, m.to, LastFileLetter(middle), LastRankDigit(middle))
  {
    var t := middle + SquareName(m.to);
    var s := t + PromotionText(m);
    if m.flags.promotion {
      assert s[..|s| - 2] == t;
      TargetReadsBack(k, m, m.promo, middle);
    } else {
      assert s == t;
      assert s[|s| - 2] == FileChar(File(m.to));
      TargetReadsBack(k, m, None, middle);
    }
  }

  lemma BodyHasNoMark(k: Kind, m: Move, needFile: bool, needRank: bool, capture: bool)
    requires m.flags.promotion ==> PromotionKind(m.promo)
    ensures var t := Body(k, m, needFile, needRank, capture); t != "" && !IsMark(t[|t| - 1])
  {
  }

  lemma MarksStripped(t: string, sign: string)
    requires t != "" && !IsMark(t[|t| - 1])
    requires sign == "" || sign == "+" || sign == "#"
    ensures StripMarks(t + sign) == t
  {
    if sign == "" {
      assert t + sign == t;
    } else {
      assert (t + sign)[..|t + sign| - 1] == t;
    }
  }

  lemma BodyStarts(k: Kind, m: Move, needFile: bool, needRank: bool, capture: bool)
    ensures var t := Body(k, m, needFile, needRank, capture);
      && t != "" && t[0] != 'O'
      && (k == Pawn ==> !NamesPiece(t))
      && (k != Pawn ==> NamesPiece(t) && LetterKind(t[0]) == Some(k))
  {
    var t := Body(k, m, needFile, needRank, capture);
    if k == Pawn {
      assert t[0] == FileChar(File(if capture then m.from else m.to));
    } else {
      assert t[0] == Letter(k)[0];
    }
  }

  lemma BodyReadsBack(k: Kind, m: Move, needFile: bool, needRank: bool, capture: bool, sign: string)
    requires m.flags.promotion ==> PromotionKind(m.promo)
    requires sign == "" || sign == "+" || sign == "#"
    ensures ParseSan(Body(k, m, needFile, needRank, capture) + sign) == QueryOf(k, m, needFile, needRank, capture)
  {
    hide ParseRest, StripMarks, NamesPiece, LetterKind, Middle, LastFileLetter, LastRankDigit, SquareName, PromotionText;
    var middle := Middle(k, m.from, needFile, needRank, capture);
    var body := Body(k, m, needFile, needRank, capture);
    var rest := middle + SquareName(m.to) + PromotionText(m);
    BodyHasNoMark(k, m, needFile, needRank, capture);
    MarksStripped(body, sign);
    BodyStarts(k, m, needFile, needRank, capture);
    RestReadsBack(k, m, middle);
    MiddleReadsBack(k, m.from, needFile, needRank, capture);
    assert body == Letter(k) + rest;
    assert k == Pawn ==> body == rest;
    assert k != Pawn ==> body[1..] == rest;
    assert (body + sign)[0] == body[0];
  }

  // ---- the query singles out the move

  /** Everything the text fixes about a legal move. */
  lemma SameTargetSameMove(p: Position, m: Move, o: Move)
    requires Inv(p) && Legal(p, m) && Legal(p, o)
    requires o.from == m.from && o.to == m.to && o.promo == m.promo
    ensures o == m
  {
    var s: Square :| PieceMove(p, s, p.side, m);
    var t: Square :| PieceMove(p, t, p.side, o);
    FlagsFollow(p, s, t, m, o);
  }

  lemma FlagsFollow(p: Position, s: Square, t: Square, m: Move, o: Move)
    requires RightsBacked(p) && EnPassantBacked(p)
    requires PieceMove(p, s, p.side, m) && PieceMove(p, t, p.side, o)
    requires o.from == m.from && o.to == m.to && o.promo == m.promo
    ensures o == m
  {
    hide PieceMove;
    FlagsBySquares(p, s, m);
    FlagsBySquares(p, t, o);
  }

  /** The flags of a move as a function of its squares and promotion. */
  function FlagsOf(p: Position, m: Move): Flags {
    if p.squares[m.from] == Man(p.side, Pawn) then
      (if m.promo != None then (if p.squares[m.to] == Empty && p.ep == Some(m.to) && File(m.to) != File(m.from) then Flags(true, true, false, false, false) else PROMOTION)
       else if File(m.to) != File(m.from) then (if p.squares[m.to] == Empty then EN_PASSANT else PLAIN)
       else if m.to == m.from + 16 * Forward(p.side) then DOUBLE_PAWN_PUSH else PLAIN)
    else if p.squares[m.from] == Man(p.side, King) && File(m.to) == File(m.from) + 2 then KINGSIDE_CASTLE
    else if p.squares[m.from] == Man(p.side, King) && File(m.to) == File(m.from) - 2 then QUEENSIDE_CASTLE
    else PLAIN
  }

  lemma FlagsBySquares(p: Position, s: Square, m: Move)
    requires RightsBacked(p) && EnPassantBacked(p) && PieceMove(p, s, p.side, m)
    ensures m.flags == FlagsOf(p, m)
  {
    hide AttackedBy, LineClear, SliderLine, KnightStep;
    match p.squares[s].kind
    case Pawn => PawnFlags(p, m);
    case King =>
      if CastleMove(p, m, p.side) {
        assert p.squares[m.from] == Man(p.side, King);
      }
    case _ =>
  }

  lemma PawnFlags(p: Position, m: Move)
    requires EnPassantBacked(p) && PawnMove(p, m, p.side) && p.squares[m.from] == Man(p.side, Pawn)
    ensures m.flags == FlagsOf(p, m)
  {
  }

  lemma PawnMoverMovesAsPawn(p: Position, m: Move)
    requires RightsBacked(p) && Shape(p, m) && p.squares[m.from].kind == Pawn
    ensures PawnMove(p, m, p.side)
  {
  }

  /** What stands behind the target of a pawn move that does not capture. */
  predicate BehindTarget(p: Position, t: Square, pc: Piece) {
    p.squares[Behind(t, p.side)] == pc
  }

  lemma QuietPawnOrigin(p: Position, m: Move)
    requires Own(p.squares, m.from, p.side) && p.squares[m.from].kind == Pawn
    ensures PawnPush(p, m, p.side) ==> m.from == Behind(m.to, p.side) && BehindTarget(p, m.to, Man(p.side, Pawn))
    ensures PawnDouble(p, m, p.side) ==> m.from == Behind(Behind(m.to, p.side), p.side) && BehindTarget(p, m.to, Empty)
  {
  }

  lemma EnPassantBehind(p: Position, t: Square)
    requires EnPassantBacked(p)
    ensures p.ep == Some(t) ==> BehindTarget(p, t, Man(Opposite(p.side), Pawn))
  {
  }

  lemma OneThingBehind(p: Position, t: Square, a: Piece, b: Piece)
    requires BehindTarget(p, t, a) && BehindTarget(p, t, b)
    ensures a == b
  {
  }

  lemma CapturingPawnOrigin(p: Position, m: Move, o: Move)
    requires PawnHits(p.side, m.from, m.to) && PawnMove(p, o, p.side)
    requires o.to == m.to && File(o.from) == File(m.from)
    ensures o.from == m.from
  {
  }

  /** Pawns: the origin follows from the target, and from the file when it captures. */
  lemma PawnOrigin(p: Position, m: Move, o: Move)
    requires EnPassantBacked(p)
    requires Own(p.squares, m.from, p.side) && p.squares[m.from].kind == Pawn
    requires Own(p.squares, o.from, p.side) && p.squares[o.from].kind == Pawn
    requires PawnMove(p, m, p.side) && PawnMove(p, o, p.side)
    requires o.to == m.to
    requires IsCapture(p, m) ==> File(o.from) == File(m.from)
    ensures o.from == m.from
  {
    hide EnPassantBacked, BehindTarget, Behind, PawnForm, PawnHits, File, Rank;
    if PawnCapture(p, m, p.side) || PawnEnPassant(p, m, p.side) {
      EnPassantFlagged(p, m);
      CapturingPawnOrigin(p, m, o);
    } else {
      QuietPawnOrigin(p, m);
      QuietPawnOrigin(p, o);
      EnPassantBehind(p, m.to);
      forall a: Piece, b: Piece | BehindTarget(p, m.to, a) && BehindTarget(p, m.to, b)
        ensures a == b
      {
        OneThingBehind(p, m.to, a, b);
      }
    }
  }

  lemma EnPassantFlagged(p: Position, m: Move)
    ensures PawnEnPassant(p, m, p.side) ==> m.flags.enPassant
    ensures PawnCapture(p, m, p.side) || PawnEnPassant(p, m, p.side) ==> IsCapture(p, m) && PawnHits(p.side, m.from, m.to)
  {
  }

  ghost function PrintedQuery(p: Position, m: Move): Query {
    QueryOf(if p.squares[m.from].Man? then p.squares[m.from].kind else Pawn, m, NeedFile(p, m), NeedRank(p, m), IsCapture(p, m))
  }

  lemma PieceOrigin(p: Position, m: Move, o: Move)
    requires p.squares[m.from].Man? && p.squares[m.from].kind != Pawn
    requires Fits(p, PrintedQuery(p, m), o)
    ensures o.from == m.from
  {
    hide Legal;
    assert o.from != m.from ==> Rival(p, m, o);
  }

  lemma PromotionFollowsFlag(p: Position, m: Move)
    requires Shape(p, m)
    ensures if m.flags.promotion then PromotionKind(m.promo) else m.promo == None
  {
  }

  /** Only the printed move fits its own query. */
  lemma PrintedQueryPinsMove(p: Position, m: Move, o: Move)
    requires Inv(p) && Legal(p, m) && !m.flags.kingside && !m.flags.queenside
    ensures Fits(p, PrintedQuery(p, m), m)
    ensures Fits(p, PrintedQuery(p, m), o) ==> o == m
  {
    hide InCheck, Apply, PseudoLegal, SquareName;
    LegalMoveIsPlayable(p, m);
    PromotionFollowsFlag(p, m);
    if Fits(p, PrintedQuery(p, m), o) {
      LegalMoveIsPlayable(p, o);
      PromotionFollowsFlag(p, o);
      if p.squares[m.from].kind == Pawn {
        PawnMoverMovesAsPawn(p, m);
        PawnMoverMovesAsPawn(p, o);
        PawnOrigin(p, m, o);
      } else {
        PieceOrigin(p, m, o);
      }
      SameTargetSameMove(p, m, o);
    }
  }

  /** A castling text names the king's own castling move. */
  lemma CastlingReadsBack(p: Position, m: Move)
    requires Inv(p) && Legal(p, m) && (m.flags.kingside || m.flags.queenside)
    ensures m == CastlingMove(m.from, m.flags.kingside)
    ensures FindKing(p.squares, p.side) == m.from
    ensures !m.flags.kingside || !m.flags.queenside
  {
    LegalMoveIsPlayable(p, m);
    CastlingShapeIsKingMove(p, m);
    var k: Square :| SoleKing(p.squares, p.side, k);
    SoleKingFound(p.squares, p.side, k);
  }

  lemma CastlingShapeIsKingMove(p: Position, m: Move)
    requires RightsBacked(p) && Shape(p, m) && (m.flags.kingside || m.flags.queenside)
    ensures m == CastlingMove(m.from, m.flags.kingside)
    ensures p.squares[m.from] == Man(p.side, King)
    ensures !m.flags.kingside || !m.flags.queenside
  {
    assert CastleShape(p, m);
  }

  lemma SanTextReadsBack(p: Position, m: Move)
    requires Inv(p) && Legal(p, m)
    ensures ParseSan(SanText(p, m)) ==
      if m.flags.kingside || m.flags.queenside then Castle(m.flags.kingside) else PrintedQuery(p, m)
  {
    hide Inv, Legal, ParseRest, StripMarks, NeedFile, NeedRank, Body, Shape, Playable, Apply, InCheck;
    LegalMoveIsPlayable(p, m);
    PromotionFollowsFlag(p, m);
    if m.flags.kingside || m.flags.queenside {
      CastlingReadsBack(p, m);
    } else {
      BodyReadsBack(p.squares[m.from].kind, m, NeedFile(p, m), NeedRank(p, m), IsCapture(p, m), CheckSign(Apply(p, m)));
    }
  }

  /**
   On every reachable position, reading the text of a legal move gives back that move, with
   its flags and promotion, whatever the order of the legal list; and there is such a reading.
   */
  lemma SanRoundTrip(p: Position, m: Move, r: Move)
    requires Inv(p) && Legal(p, m)
    ensures Denotes(p, ParseSan(SanText(p, m)), r) <==> r == m
  {
    hide Inv, Legal, ParseSan, SanText, PrintedQuery, Fits, FitsAsQueen, FindKing, CastlingMove;
    SanTextReadsBack(p, m);
    if m.flags.kingside || m.flags.queenside {
      CastlingReadsBack(p, m);
    } else {
      PrintedQueryFinds(p, m);
      PrintedQueryPinsMove(p, m, r);
    }
  }

  lemma PrintedQueryFinds(p: Position, m: Move)
    ensures PrintedQuery(p, m).Find?
  {
  }

  /** Distinct legal moves print distinctly. */
  lemma SanTextIsInjective(p: Position, m: Move, o: Move)
    requires Inv(p) && Legal(p, m) && Legal(p, o) && SanText(p, m) == SanText(p, o)
    ensures m == o
  {
    hide *;
    SanRoundTrip(p, m, m);
    SanRoundTrip(p, o, m);
  }
}
