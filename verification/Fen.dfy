/** Forsyth-Edwards notation: printing a board and parsing the text back. */
module Fen {
  import opened Types
  import opened Rules
  import opened Zobrist
  import opened Text
  import opened BoardState

  // ---------------------------------------------------------------- piece letters

  function PieceChar(pc: Piece): char {
    match pc
    case Empty => '.'
    case Man(c, k) =>
      var upper := match k
        case Pawn => 'P'
        case Knight => 'N'
        case Bishop => 'B'
        case Rook => 'R'
        case Queen => 'Q'
        case King => 'K';
      if c == Black then Lower(upper) else upper
  }

  function CharPiece(c: char): Piece {
    var color := if IsUpper(c) then White else Black;
    match Lower(c)
    case 'p' => Man(color, Pawn)
    case 'n' => Man(color, Knight)
    case 'b' => Man(color, Bishop)
    case 'r' => Man(color, Rook)
    case 'q' => Man(color, Queen)
    case 'k' => Man(color, King)
    case _ => Empty
  }

  lemma PieceCharRoundTrip(pc: Piece)
    requires pc.Man?
    ensures CharPiece(PieceChar(pc)) == pc
    ensures PieceChar(pc) != '/' && !IsDigit(PieceChar(pc)) && !IsSpace(PieceChar(pc))
  {
  }

  // ---------------------------------------------------------------- printing

  /** A run of `empty` empty squares. */
  function Run(empty: nat): string {
    if empty > 0 then Decimal(empty) else ""
  }

  /** Rank `r` from file `f` on, after `empty` empty squares. */
  function RankText(b: Placement, r: int, f: nat, empty: nat): string
    requires 0 <= r < 8 && f <= 8
    decreases 8 - f
  {
    if f == 8 then Run(empty)
    else if b[At(r, f)] == Empty then RankText(b, r, f + 1, empty + 1)
    else Run(empty) + [PieceChar(b[At(r, f)])] + RankText(b, r, f + 1, 0)
  }

  /** Ranks `r` down to 0. */
  function PlacementText(b: Placement, r: nat): string
    requires r < 8
  {
    RankText(b, r, 0, 0) + if r > 0 then "/" + PlacementText(b, r - 1) else ""
  }

  function CastlingText(r: Rights): string {
    if r == NO_RIGHTS then "-" else
      (if r.wk then "K" else "") + (if r.wq then "Q" else "") + (if r.bk then "k" else "") + (if r.bq then "q" else "")
  }

  function EnPassantText(ep: Option<Square>): string {
    if ep == None then "-" else SquareName(ep.value)
  }

  function IntText(n: int): string {
    if n < 0 then "-" + Decimal(-n) else Decimal(n)
  }

  function SideText(c: Color): string {
    if c == White then "w" else "b"
  }

  function ToFen(p: Position): string {
    PlacementText(p.squares, 7) + " " + SideText(p.side) + " " + CastlingText(p.rights) + " "
    + EnPassantText(p.ep) + " " + IntText(p.halfmove) + " " + IntText(p.fullmove)
  }

  /** What is printed so far, with the square `f` still to be looked at. */
  lemma RankTextStep(b: Placement, r: int, f: nat, empty: nat, t: string)
    requires 0 <= r < 8 && f < 8
    ensures t + RankText(b, r, f, empty) ==
      if b[At(r, f)] == Empty then t + RankText(b, r, f + 1, empty + 1)
      else t + Run(empty) + [PieceChar(b[At(r, f)])] + RankText(b, r, f + 1, 0)
  {
    hide Decimal, PieceChar;
    var tail := RankText(b, r, f + 1, 0);
    assert t + (Run(empty) + [PieceChar(b[At(r, f)])] + tail) == t + Run(empty) + [PieceChar(b[At(r, f)])] + tail;
  }

  method WriteRank(b: Board, r: int) returns (t: string)
    requires b.Valid() && 0 <= r < 8
    ensures t == RankText(b.squares[..], r, 0, 0)
  {
    hide Decimal, PieceChar, RankText;
    ghost var sq := b.squares[..];
    t := "";
    var empty := 0;
    assert t + RankText(sq, r, 0, 0) == RankText(sq, r, 0, 0);
    for f := 0 to 8
      invariant 0 <= empty <= f
      invariant t + RankText(sq, r, f, empty) == RankText(sq, r, 0, 0)
    {
      RankTextStep(sq, r, f, empty, t);
      var pc := b.squares[At(r, f)];
      assert pc == sq[At(r, f)];
      if pc == Empty {
        empty := empty + 1;
      } else {
        assert empty == 0 ==> t + Run(empty) == t;
        if empty > 0 {
          t := t + Decimal(empty);
          empty := 0;
        }
        t := t + [PieceChar(pc)];
      }
    }
    RankTextEnd(sq, r, empty);
    assert empty == 0 ==> t + Run(empty) == t;
    if empty > 0 {
      t := t + Decimal(empty);
    }
  }

  lemma RankTextEnd(b: Placement, r: int, empty: nat)
    requires 0 <= r < 8
    ensures RankText(b, r, 8, empty) == Run(empty)
  {
  }

  method WritePlacement(b: Board) returns (fen: string)
    requires b.Valid()
    ensures fen == PlacementText(b.squares[..], 7)
  {
    hide RankText;
    ghost var sq := b.squares[..];
    fen := "";
    var r := 7;
    while r >= 0
      invariant -1 <= r <= 7
      invariant fen + (if r >= 0 then PlacementText(sq, r) else "") == PlacementText(sq, 7)
    {
      var rank := WriteRank(b, r);
      ghost var tail := if r > 0 then PlacementText(sq, r - 1) else "";
      ghost var slash := if r > 0 then "/" else "";
      assert fen + (rank + (slash + tail)) == fen + rank + slash + tail;
      fen := fen + rank;
      if r > 0 {
        fen := fen + "/";
      }
      r := r - 1;
    }
  }

  method WriteFen(b: Board) returns (fen: string)
    requires b.Valid()
    ensures fen == ToFen(b.View())
  {
    hide PlacementText, CastlingText, EnPassantText, IntText;
    fen := WritePlacement(b);
    fen := fen + " " + SideText(b.side) + " " + CastlingText(b.rights) + " "
      + EnPassantText(b.ep) + " " + IntText(b.halfmove) + " " + IntText(b.fullmove);
  }

  // ---------------------------------------------------------------- parsing: placement

  /** The state of the placement loop. */
  datatype Cursor = Bad | Cursor(squares: Placement, rank: int, file: int)

  function NoPieces(): Placement {
    seq(64, _ => Empty)
  }

  /** One character of the placement field.  A ninth rank is refused at its first piece. */
  function Feed(c: Cursor, ch: char): Cursor {
    if c.Bad? then Bad
    else if ch == '/' then
      if c.file != 8 then Bad else Cursor(c.squares, c.rank - 1, 0)
    else if IsDigit(ch) then
      var n := ch as int - '0' as int;
      if n < 1 || n > 8 || c.file + n > 8 then Bad else Cursor(c.squares, c.rank, c.file + n)
    else
      var pc := CharPiece(ch);
      if pc == Empty || c.file >= 8 || !OnBoard(c.rank, c.file) then Bad
      else Cursor(c.squares[At(c.rank, c.file) := pc], c.rank, c.file + 1)
  }

  function FeedAll(c: Cursor, t: string): Cursor
    decreases |t|
  {
    if t == "" then c else FeedAll(Feed(c, t[0]), t[1..])
  }

  lemma {:induction false} FeedConcat(c: Cursor, s: string, t: string)
    ensures FeedAll(c, s + t) == FeedAll(FeedAll(c, s), t)
    decreases |s|
  {
    if s == "" {
      assert s + t == t;
    } else {
      assert (s + t)[0] == s[0] && (s + t)[1..] == s[1..] + t;
      FeedConcat(Feed(c, s[0]), s[1..], t);
    }
  }

  lemma FeedOne(c: Cursor, ch: char)
    ensures FeedAll(c, [ch]) == Feed(c, ch)
  {
    assert [ch][1..] == "";
    assert FeedAll(Feed(c, ch), "") == Feed(c, ch);
  }

  /** What is on the board once ranks above `r` and files below `f` of rank `r` are read. */
  function Seen(b: Placement, r: int, f: int): Placement {
    seq(64, s requires 0 <= s < 64 => if Rank(s) > r || (Rank(s) == r && File(s) < f) then b[s] else Empty)
  }

  lemma SeenNext(b: Placement, r: int, f: int)
    requires 0 <= r < 8 && 0 <= f < 8
    ensures Seen(b, r, f + 1) == Seen(b, r, f)[At(r, f) := b[At(r, f)]]
    ensures b[At(r, f)] == Empty ==> Seen(b, r, f + 1) == Seen(b, r, f)
  {
    var next, placed := Seen(b, r, f + 1), Seen(b, r, f)[At(r, f) := b[At(r, f)]];
    forall s: Square
      ensures next[s] == placed[s]
    {
    }
    assert next == placed;
    assert Seen(b, r, f)[At(r, f)] == Empty;
  }

  lemma SeenNextRank(b: Placement, r: int)
    ensures Seen(b, r, 8) == Seen(b, r - 1, 0)
  {
  }

  lemma RunFeeds(c: Cursor, empty: nat)
    requires c.Cursor? && empty <= 8 && 0 <= c.file && c.file + empty <= 8
    ensures FeedAll(c, Run(empty)) == c.(file := c.file + empty)
  {
    if empty > 0 {
      FeedOne(c, DigitChar(empty));
    }
  }

  /** Feeding the text of a rank sets down exactly that rank. */
  lemma {:induction false} RankReadsBack(b: Placement, r: int, f: nat, empty: nat)
    requires 0 <= r < 8 && empty <= f <= 8
    requires Seen(b, r, f - empty) == Seen(b, r, f)
    ensures FeedAll(Cursor(Seen(b, r, f - empty), r, f - empty), RankText(b, r, f, empty)) == Cursor(Seen(b, r, 8), r, 8)
    decreases 8 - f
  {
    var c := Cursor(Seen(b, r, f - empty), r, f - empty);
    RunFeeds(c, empty);
    if f < 8 {
      SeenNext(b, r, f);
      var pc := b[At(r, f)];
      if pc == Empty {
        RankReadsBack(b, r, f + 1, empty + 1);
      } else {
        PieceCharRoundTrip(pc);
        FeedConcat(c, Run(empty) + [PieceChar(pc)], RankText(b, r, f + 1, 0));
        FeedConcat(c, Run(empty), [PieceChar(pc)]);
        FeedOne(c.(file := f), PieceChar(pc));
        RankReadsBack(b, r, f + 1, 0);
      }
    }
  }

  lemma SeenAll(b: Placement)
    ensures Seen(b, 0, 8) == b
  {
  }

  lemma {:induction false} PlacementReadsBack(b: Placement, r: nat)
    requires r < 8
    ensures FeedAll(Cursor(Seen(b, r, 0), r, 0), PlacementText(b, r)) == Cursor(b, 0, 8)
  {
    hide RankText, FeedAll, Seen;
    var c := Cursor(Seen(b, r, 0), r, 0);
    var rank := RankText(b, r, 0, 0);
    RankReadsBack(b, r, 0, 0);
    if r == 0 {
      assert PlacementText(b, 0) == rank + "" == rank;
      SeenAll(b);
    } else {
      var rest := PlacementText(b, r - 1);
      FeedConcat(c, rank, "/" + rest);
      FeedConcat(Cursor(Seen(b, r, 8), r, 8), "/", rest);
      FeedOne(Cursor(Seen(b, r, 8), r, 8), '/');
      SeenNextRank(b, r);
      PlacementReadsBack(b, r - 1);
    }
  }

  // ---------------------------------------------------------------- parsing: the other fields

  function CastlingBit(r: Rights, c: char): Option<Rights> {
    match c
    case 'K' => Some(r.(wk := true))
    case 'Q' => Some(r.(wq := true))
    case 'k' => Some(r.(bk := true))
    case 'q' => Some(r.(bq := true))
    case _ => None
  }

  function CastlingLetters(t: string): Option<Rights> {
    if t == "" then Some(NO_RIGHTS) else
      var r := CastlingLetters(t[..|t| - 1]);
      if r == None then None else CastlingBit(r.value, t[|t| - 1])
  }

  function ParseCastling(t: string): Option<Rights> {
    if t == "-" then Some(NO_RIGHTS) else CastlingLetters(t)
  }

  lemma LetterAdded(t: string, x: string)
    requires |x| <= 1
    ensures CastlingLetters(t + x) ==
      if x == "" || CastlingLetters(t) == None then CastlingLetters(t)
      else CastlingBit(CastlingLetters(t).value, x[0])
  {
    if x == "" {
      assert t + x == t;
    } else {
      assert (t + x)[..|t + x| - 1] == t;
    }
  }

  lemma CastlingReadsBack(r: Rights)
    ensures ParseCastling(CastlingText(r)) == Some(r)
  {
    hide CastlingLetters;
    NoLetters();
    var a := if r.wk then "K" else "";
    var b := if r.wq then "Q" else "";
    var c := if r.bk then "k" else "";
    var d := if r.bq then "q" else "";
    assert "" + a == a;
    LetterAdded("", a);
    assert CastlingLetters(a) == Some(Rights(r.wk, false, false, false));
    LetterAdded(a, b);
    assert CastlingLetters(a + b) == Some(Rights(r.wk, r.wq, false, false));
    LetterAdded(a + b, c);
    assert CastlingLetters(a + b + c) == Some(Rights(r.wk, r.wq, r.bk, false));
    LetterAdded(a + b + c, d);
    assert a + b + c + d != "-" by { CastlingTextIsWord(r); }
  }

  lemma NoLetters()
    ensures CastlingLetters("") == Some(NO_RIGHTS)
  {
  }

  lemma CastlingTextIsWord(r: Rights)
    ensures IsWord(CastlingText(r))
    ensures r != NO_RIGHTS ==> CastlingText(r)[0] != '-'
  {
    var t := CastlingText(r);
    assert forall i :: 0 <= i < |t| ==> t[i] == 'K' || t[i] == 'Q' || t[i] == 'k' || t[i] == 'q' || t[i] == '-';
  }

  function ParseSide(t: string): Option<Color> {
    if t == "w" then Some(White) else if t == "b" then Some(Black) else None
  }

  /** The fourth field; the outer option is success. */
  function ParseEnPassant(t: string): Option<Option<Square>> {
    if t == "-" then Some(None)
    else if SquareOf(t) == None then None
    else Some(SquareOf(t))
  }

  lemma EnPassantReadsBack(ep: Option<Square>)
    ensures ParseEnPassant(EnPassantText(ep)) == Some(ep)
    ensures IsWord(EnPassantText(ep))
  {
    if ep.Some? {
      SquareNameRoundTrip(ep.value);
    }
  }

  const INT_MAX := 2147483647

  function DigitsEnd(s: string, i: nat): (j: nat)
    requires i <= |s|
    ensures i <= j <= |s|
    ensures forall k :: i <= k < j ==> IsDigit(s[k])
    ensures j < |s| ==> !IsDigit(s[j])
    decreases |s| - i
  {
    if i < |s| && IsDigit(s[i]) then DigitsEnd(s, i + 1) else i
  }

  /** Reading an `int` from a stream at `i`: spaces, a sign, digits; out of range fails. */
  function ReadInt(s: string, i: nat): Option<(int, nat)>
    requires i <= |s|
  {
    var a := SkipSpaces(s, i);
    var d := if a < |s| && (s[a] == '-' || s[a] == '+') then a + 1 else a;
    var e := DigitsEnd(s, d);
    if e == d then None else
      var v: int := DecimalValue(s[d..e]);
      var n := if d > a && s[a] == '-' then -v else v;
      if n > INT_MAX || n < -INT_MAX - 1 then None else Some((n, e))
  }

  datatype Fields = Fields(placement: string, side: string, castling: string, ep: string, halfmove: int, fullmove: int)

  function WordAt(s: string, i: nat): string
    requires i <= |s|
  {
    s[SkipSpaces(s, i)..AfterWord(s, i)]
  }

  function AfterWord(s: string, i: nat): (e: nat)
    requires i <= |s|
    ensures SkipSpaces(s, i) <= e <= |s|
  {
    WordEnd(s, SkipSpaces(s, i))
  }

  /** All six fields are required. */
  function ReadFields(s: string): Option<Fields> {
    var i1 := AfterWord(s, 0);
    var i2 := AfterWord(s, i1);
    var i3 := AfterWord(s, i2);
    var i4 := AfterWord(s, i3);
    if WordAt(s, i3) == "" then None else
      var h := ReadInt(s, i4);
      if h == None then None else
        var n := if h.value.1 <= |s| then ReadInt(s, h.value.1) else None;
        if n == None then None
        else Some(Fields(WordAt(s, 0), WordAt(s, i1), WordAt(s, i2), WordAt(s, i3), h.value.0, n.value.0))
  }

  function DecodeFields(f: Fields): Option<Position> {
    var c := FeedAll(Cursor(NoPieces(), 7, 0), f.placement);
    if c.Bad? || c.rank != 0 || c.file != 8 then None else
      match (ParseSide(f.side), ParseCastling(f.castling), ParseEnPassant(f.ep))
      case (Some(side), Some(rights), Some(ep)) =>
        if f.halfmove < 0 || f.fullmove < 1 then None
        else Some(Position(c.squares, side, rights, ep, f.halfmove, f.fullmove))
      case _ => None
  }

  function ParseFen(fen: string): Option<Position> {
    var f := ReadFields(fen);
    if f == None then None else DecodeFields(f.value)
  }

  // ---------------------------------------------------------------- round trip

  lemma WordInContext(s: string, i: nat, a: nat, w: string)
    requires i <= a <= i + 1 && a + |w| <= |s| && (i < a ==> IsSpace(s[i]))
    requires IsWord(w) && s[a..a + |w|] == w
    requires a + |w| == |s| || IsSpace(s[a + |w|])
    ensures WordAt(s, i) == w && AfterWord(s, i) == a + |w|
  {
    forall k | a <= k < a + |w|
      ensures !IsSpace(s[k])
    {
      assert s[k] == w[k - a];
    }
    SkipSpacesOf(s, i, a);
    WordEndOf(s, a, a + |w|);
  }

  lemma {:induction false} DigitsEndOf(s: string, i: nat, e: nat)
    requires i <= e <= |s| && (forall k :: i <= k < e ==> IsDigit(s[k])) && (e == |s| || !IsDigit(s[e]))
    ensures DigitsEnd(s, i) == e
    decreases e - i
  {
    if i < e {
      DigitsEndOf(s, i + 1, e);
    }
  }

  lemma IntInContext(s: string, i: nat, n: nat)
    requires var t := Decimal(n); i + 1 + |t| <= |s| && s[i] == ' ' && s[i + 1..i + 1 + |t|] == t
    requires var e := i + 1 + |Decimal(n)|; e == |s| || IsSpace(s[e])
    requires n <= INT_MAX
    ensures ReadInt(s, i) == Some((n, i + 1 + |Decimal(n)|))
  {
    hide Decimal, DecimalValue, DigitsEnd, SkipSpaces;
    var t := Decimal(n);
    forall k | i + 1 <= k < i + 1 + |t|
      ensures IsDigit(s[k])
    {
      assert s[k] == t[k - i - 1];
    }
    SkipSpacesOf(s, i, i + 1);
    DigitsEndOf(s, i + 1, i + 1 + |t|);
    DecimalRoundTrip(n);
  }

  /** A prefix of `s` that ends in a field: the field stands there, after a space and a shorter prefix. */
  lemma FieldSlice(s: string, whole: string, before: string, w: string)
    requires |whole| <= |s| && s[..|whole|] == whole && whole == before + " " + w
    ensures |before| + 1 + |w| == |whole|
    ensures s[..|before|] == before && s[|before|] == ' ' && s[|before| + 1..|whole|] == w
  {
    assert s[|before| + 1..|whole|] == whole[|before| + 1..];
    assert s[|before|] == whole[|before|];
    assert s[..|before|] == whole[..|before|];
  }

  /** Field `w` of `s` occupies [i + 1, j), after a space at `i`. */
  predicate FieldAt(s: string, i: nat, w: string, j: nat) {
    i + 1 + |w| == j <= |s| && s[i] == ' ' && s[i + 1..j] == w && (j == |s| || s[j] == ' ')
  }

  lemma FieldIsWord(s: string, i: nat, w: string, j: nat)
    requires FieldAt(s, i, w, j) && IsWord(w)
    ensures i <= |s| && WordAt(s, i) == w && AfterWord(s, i) == j <= |s|
  {
    hide IsWord;
    WordInContext(s, i, i + 1, w);
  }

  lemma FieldIsInt(s: string, i: nat, n: nat, j: nat)
    requires FieldAt(s, i, Decimal(n), j) && n <= INT_MAX
    ensures i <= |s| && ReadInt(s, i) == Some((n, j)) && j <= |s|
  {
    hide Decimal, ReadInt;
    IntInContext(s, i, n);
  }

  lemma FieldsInPlace(s: string, f: Fields, i1: nat, i2: nat, i3: nat, i4: nat, i5: nat)
    requires IsWord(f.placement) && IsWord(f.side) && IsWord(f.castling) && IsWord(f.ep)
    requires 0 <= f.halfmove <= INT_MAX && 0 <= f.fullmove <= INT_MAX
    requires WordAt(s, 0) == f.placement && AfterWord(s, 0) == i1
    requires FieldAt(s, i1, f.side, i2) && FieldAt(s, i2, f.castling, i3) && FieldAt(s, i3, f.ep, i4)
    requires FieldAt(s, i4, Decimal(f.halfmove), i5) && FieldAt(s, i5, Decimal(f.fullmove), |s|)
    ensures ReadFields(s) == Some(f)
  {
    hide Decimal, ReadInt, WordAt, AfterWord, IsWord, FieldAt;
    FieldIsWord(s, i1, f.side, i2);
    FieldIsWord(s, i2, f.castling, i3);
    FieldIsWord(s, i3, f.ep, i4);
    FieldIsInt(s, i4, f.halfmove, i5);
    FieldIsInt(s, i5, f.fullmove, |s|);
    WordIsNotEmpty(f.ep);
  }

  lemma FieldsReadBack(f: Fields)
    requires IsWord(f.placement) && IsWord(f.side) && IsWord(f.castling) && IsWord(f.ep)
    requires 0 <= f.halfmove <= INT_MAX && 0 <= f.fullmove <= INT_MAX
    ensures ReadFields(f.placement + " " + f.side + " " + f.castling + " " + f.ep
      + " " + Decimal(f.halfmove) + " " + Decimal(f.fullmove)) == Some(f)
  {
    hide Decimal, ReadFields, IsWord, WordAt, AfterWord;
    var p1 := f.placement;
    var p2 := p1 + " " + f.side;
    var p3 := p2 + " " + f.castling;
    var p4 := p3 + " " + f.ep;
    var p5 := p4 + " " + Decimal(f.halfmove);
    var s := p5 + " " + Decimal(f.fullmove);
    assert s[..|s|] == s;
    FieldSlice(s, s, p5, Decimal(f.fullmove));
    FieldSlice(s, p5, p4, Decimal(f.halfmove));
    FieldSlice(s, p4, p3, f.ep);
    FieldSlice(s, p3, p2, f.castling);
    FieldSlice(s, p2, p1, f.side);
    WordInContext(s, 0, 0, p1);
    FieldsInPlace(s, f, |p1|, |p2|, |p3|, |p4|, |p5|);
  }

  lemma WordIsNotEmpty(w: string)
    requires IsWord(w)
    ensures w != ""
  {
  }

  predicate NoSpaces(t: string) {
    forall i :: 0 <= i < |t| ==> !IsSpace(t[i])
  }

  lemma RunHasNoSpaces(empty: nat)
    ensures NoSpaces(Run(empty))
  {
    hide Decimal;
    assert forall c: char :: IsDigit(c) ==> !IsSpace(c);
  }

  lemma {:induction false} RankTextHasNoSpaces(b: Placement, r: int, f: nat, empty: nat)
    requires 0 <= r < 8 && f <= 8
    ensures NoSpaces(RankText(b, r, f, empty))
    decreases 8 - f
  {
    hide Run;
    RunHasNoSpaces(empty);
    if f < 8 {
      if b[At(r, f)] == Empty {
        RankTextHasNoSpaces(b, r, f + 1, empty + 1);
      } else {
        PieceCharRoundTrip(b[At(r, f)]);
        RankTextHasNoSpaces(b, r, f + 1, 0);
      }
    }
  }

  lemma {:induction false} PlacementTextHasNoSpaces(b: Placement, r: nat)
    requires r < 8
    ensures NoSpaces(PlacementText(b, r))
  {
    hide RankText;
    RankTextHasNoSpaces(b, r, 0, 0);
    if r > 0 {
      PlacementTextHasNoSpaces(b, r - 1);
    }
  }

  lemma PlacementTextIsWord(b: Placement)
    ensures IsWord(PlacementText(b, 7))
  {
    PlacementTextHasNoSpaces(b, 7);
    assert PlacementText(b, 7)[|RankText(b, 7, 0, 0)|] == '/';
  }

  /** Clocks that fit the integers the parser reads. */
  predicate ClocksFit(p: Position) {
    0 <= p.halfmove <= INT_MAX && 1 <= p.fullmove <= INT_MAX
  }

  lemma NothingSeen(b: Placement)
    ensures Seen(b, 7, 0) == NoPieces()
  {
  }

  /** For every board with clocks in range, parsing the printed text gives back every field. */
  lemma FenRoundTrip(p: Position)
    requires ClocksFit(p)
    ensures ParseFen(ToFen(p)) == Some(p)
  {
    hide PlacementText, CastlingText, EnPassantText, ReadFields, ParseCastling, ParseEnPassant, IsWord, Seen, FeedAll, Decimal;
    var f := Fields(PlacementText(p.squares, 7), SideText(p.side), CastlingText(p.rights), EnPassantText(p.ep),
      p.halfmove, p.fullmove);
    PlacementTextIsWord(p.squares);
    SideTextIsWord(p.side);
    CastlingTextIsWord(p.rights);
    EnPassantReadsBack(p.ep);
    FieldsReadBack(f);
    assert ToFen(p) == f.placement + " " + f.side + " " + f.castling + " " + f.ep
      + " " + Decimal(f.halfmove) + " " + Decimal(f.fullmove);
    NothingSeen(p.squares);
    PlacementReadsBack(p.squares, 7);
    CastlingReadsBack(p.rights);
  }

  lemma SideTextIsWord(c: Color)
    ensures IsWord(SideText(c))
  {
  }

  /** Hence boards are told apart by their text. */
  lemma FenTextIsInjective(p: Position, q: Position)
    requires ClocksFit(p) && ClocksFit(q) && ToFen(p) == ToFen(q)
    ensures p == q
  {
    hide *;
    FenRoundTrip(p);
    FenRoundTrip(q);
  }

  lemma ReadIntFits(s: string, i: nat)
    requires i <= |s| && ReadInt(s, i).Some?
    ensures -INT_MAX - 1 <= ReadInt(s, i).value.0 <= INT_MAX
  {
    hide DecimalValue, DigitsEnd, SkipSpaces;
  }

  lemma FieldsFit(s: string)
    requires ReadFields(s).Some?
    ensures ReadFields(s).value.halfmove <= INT_MAX && ReadFields(s).value.fullmove <= INT_MAX
  {
    hide WordAt, AfterWord, ReadInt;
    var i4 := AfterWord(s, AfterWord(s, AfterWord(s, AfterWord(s, 0))));
    ReadIntFits(s, i4);
    if ReadInt(s, i4).value.1 <= |s| {
      ReadIntFits(s, ReadInt(s, i4).value.1);
    }
  }

  /** Whatever text a board was read from, printing it gives a text that reads back as the same board: a normal form. */
  lemma PrintedIsNormalForm(t: string, p: Position)
    requires ParseFen(t) == Some(p)
    ensures ClocksFit(p) && ParseFen(ToFen(p)) == Some(p)
  {
    hide FeedAll, ParseSide, ParseCastling, ParseEnPassant, ReadFields, ToFen;
    FieldsFit(t);
    FenRoundTrip(p);
  }

  /** Two texts are readings of one board exactly when they have one normal form. */
  lemma SameBoardSameNormalForm(t: string, u: string, p: Position, q: Position)
    requires ParseFen(t) == Some(p) && ParseFen(u) == Some(q)
    ensures p == q <==> ToFen(p) == ToFen(q)
  {
    hide *;
    PrintedIsNormalForm(t, p);
    PrintedIsNormalForm(u, q);
    if ToFen(p) == ToFen(q) {
      FenTextIsInjective(p, q);
    }
  }

  // ---------------------------------------------------------------- the parser itself

  lemma {:induction false} BadStaysBad(t: string)
    ensures FeedAll(Bad, t) == Bad
    decreases |t|
  {
    if t != "" {
      BadStaysBad(t[1..]);
    }
  }

  predicate PlacementComplete(c: Cursor) {
    c.Cursor? && c.rank == 0 && c.file == 8
  }

  /** The loop over the placement field, setting pieces down as it goes. */
  method ReadPlacement(b: Board, t: string) returns (ok: bool)
    requires b.Valid() && b.squares[..] == NoPieces()
    modifies b.squares
    ensures ok <==> PlacementComplete(FeedAll(Cursor(NoPieces(), 7, 0), t))
    ensures ok ==> b.squares[..] == FeedAll(Cursor(NoPieces(), 7, 0), t).squares
  {
    ghost var whole := FeedAll(Cursor(NoPieces(), 7, 0), t);
    var rank, file := 7, 0;
    assert t[0..] == t;
    for i := 0 to |t|
      invariant whole == FeedAll(Cursor(b.squares[..], rank, file), t[i..])
    {
      var c := t[i];
      ghost var sq := b.squares[..];
      assert t[i..][0] == c && t[i..][1..] == t[i + 1..];
      BadStaysBad(t[i + 1..]);
      if c == '/' {
        if file != 8 {
          return false;
        }
        rank, file := rank - 1, 0;
      } else if IsDigit(c) {
        var empty := c as int - '0' as int;
        if empty < 1 || empty > 8 {
          return false;
        }
        file := file + empty;
        if file > 8 {
          return false;
        }
      } else {
        var pc := CharPiece(c);
        if pc == Empty || file >= 8 || !OnBoard(rank, file) {
          return false;
        }
        b.squares[At(rank, file)] := pc;
        assert b.squares[..] == sq[At(rank, file) := pc];
        file := file + 1;
      }
    }
    ok := rank == 0 && file == 8;
  }

  /** Accumulating the digits from `d` on. */
  method ExtractDigits(s: string, d: nat) returns (v: nat, e: nat)
    requires d <= |s|
    ensures d <= e <= |s| && e == DigitsEnd(s, d) && v == DecimalValue(s[d..e])
  {
    e, v := d, 0;
    while e < |s| && IsDigit(s[e])
      invariant d <= e <= |s| && DigitsEnd(s, d) == DigitsEnd(s, e)
      invariant forall k :: d <= k < e ==> IsDigit(s[k])
      invariant v == DecimalValue(s[d..e])
    {
      assert s[d..e + 1][..e - d] == s[d..e];
      v := 10 * v + (s[e] as int - '0' as int);
      e := e + 1;
    }
  }

  /** Extracting an integer from the stream. */
  method ExtractInt(s: string, i: nat) returns (r: Option<(int, nat)>)
    requires i <= |s|
    ensures r == ReadInt(s, i)
    ensures r.Some? ==> r.value.1 <= |s|
  {
    hide DecimalValue, DigitsEnd;
    var a := i;
    while a < |s| && IsSpace(s[a])
      invariant i <= a <= |s| && SkipSpaces(s, i) == SkipSpaces(s, a)
    {
      a := a + 1;
    }
    var d := if a < |s| && (s[a] == '-' || s[a] == '+') then a + 1 else a;
    var v, e := ExtractDigits(s, d);
    if e == d {
      return None;
    }
    var n: int := v;
    if d > a && s[a] == '-' {
      n := -n;
    }
    if n > INT_MAX || n < -INT_MAX - 1 {
      return None;
    }
    r := Some((n, e));
  }

  method ExtractFields(s: string) returns (f: Option<Fields>)
    ensures f == ReadFields(s)
  {
    hide ReadInt;
    var placement, i1 := ExtractWord(s, 0);
    var side, i2 := ExtractWord(s, i1);
    var castling, i3 := ExtractWord(s, i2);
    var ep, i4 := ExtractWord(s, i3);
    if ep == "" {
      return None;
    }
    var h := ExtractInt(s, i4);
    if h == None {
      return None;
    }
    var n := ExtractInt(s, h.value.1);
    if n == None {
      return None;
    }
    f := Some(Fields(placement, side, castling, ep, h.value.0, n.value.0));
  }

  method ExtractWord(s: string, i: nat) returns (w: string, next: nat)
    requires i <= |s|
    ensures w == WordAt(s, i) && next == AfterWord(s, i) && next <= |s|
  {
    var a := i;
    while a < |s| && IsSpace(s[a])
      invariant i <= a <= |s| && SkipSpaces(s, i) == SkipSpaces(s, a)
    {
      a := a + 1;
    }
    next := a;
    w := "";
    while next < |s| && !IsSpace(s[next])
      invariant a <= next <= |s| && w == s[a..next] && WordEnd(s, a) == WordEnd(s, next)
    {
      w := w + [s[next]];
      next := next + 1;
    }
  }

  /** Clears the board, then loads the six fields; on failure only the outcome is promised. */
  method SetFromFen(b: Board, fen: string) returns (ok: bool)
    requires b.Valid()
    modifies b, b.squares
    ensures ok <==> ParseFen(fen).Some?
    ensures ok ==> b.View() == ParseFen(fen).value && b.Keyed()
  {
    hide ReadFields, FeedAll, ParseCastling, ParseEnPassant, Hash;
    forall i | 0 <= i < 64 {
      b.squares[i] := Empty;
    }
    assert b.squares[..] == NoPieces();
    b.side, b.rights, b.ep, b.halfmove, b.fullmove := White, NO_RIGHTS, None, 0, 1;
    var fields := ExtractFields(fen);
    if fields == None {
      return false;
    }
    var f := fields.value;
    ok := ReadPlacement(b, f.placement);
    if !ok {
      return;
    }
    var side, rights, ep := ParseSide(f.side), ParseCastling(f.castling), ParseEnPassant(f.ep);
    if side == None || rights == None || ep == None || f.halfmove < 0 || f.fullmove < 1 {
      return false;
    }
    b.side, b.rights, b.ep := side.value, rights.value, ep.value;
    b.halfmove, b.fullmove := f.halfmove, f.fullmove;
    var key := b.ComputeHash();
    b.key := key;
  }

  /** Printing a board and loading the text into any other board copies it, key included. */
  method CopyThroughText(source: Board, target: Board) returns (ok: bool)
    requires source.Valid() && target.Valid() && source != target && source.squares != target.squares
    requires ClocksFit(source.View()) && source.keys == target.keys && source.Keyed()
    modifies target, target.squares
    ensures ok && target.View() == source.View() && target.key == source.key
  {
    var fen := WriteFen(source);
    FenRoundTrip(source.View());
    ok := SetFromFen(target, fen);
  }

  // ---------------------------------------------------------------- the starting position

  const STARTING_PLACEMENT :=
    "rnbqkbnr" + ("/" + ("pppppppp" + ("/" + ("8" + ("/" + ("8" + ("/" + ("8" + ("/" + ("8" + ("/"
    + ("PPPPPPPP" + ("/" + "RNBQKBNR")))))))))))))

  /** "rnbqkbnr/pppppppp/8/8/8/8/PPPPPPPP/RNBQKBNR w KQkq - 0 1" */
  const STARTING_FEN :=
    STARTING_PLACEMENT + " " + "w" + " " + "KQkq" + " " + "-" + " " + "0" + " " + "1"

  lemma {:induction false} FullRank(b: Placement, r: int, f: nat, t: string)
    requires 0 <= r < 8 && f <= 8 && |t| == 8
    requires forall i :: 0 <= i < 8 ==> b[At(r, i)] != Empty && PieceChar(b[At(r, i)]) == t[i]
    ensures RankText(b, r, f, 0) == t[f..]
    decreases 8 - f
  {
    if f < 8 {
      FullRank(b, r, f + 1, t);
      assert b[At(r, f)] != Empty;
      assert [t[f]] + t[f + 1..] == t[f..];
    }
  }

  lemma {:induction false} EmptyRank(b: Placement, r: int, f: nat)
    requires 0 <= r < 8 && f <= 8
    requires forall i :: 0 <= i < 8 ==> b[At(r, i)] == Empty
    ensures RankText(b, r, f, f) == "8"
    decreases 8 - f
  {
    if f < 8 {
      EmptyRank(b, r, f + 1);
    }
  }

  lemma HomeLetter(c: Color, i: int)
    requires 0 <= i < 8
    ensures PieceChar(HomeRow(c)[i]) == (if c == White then "RNBQKBNR" else "rnbqkbnr")[i]
  {
  }

  lemma HomeSquare(c: Color, i: int)
    requires 0 <= i < 8
    ensures START.squares[At(if c == White then 0 else 7, i)] == HomeRow(c)[i]
  {
  }

  lemma StartHomeText(c: Color)
    ensures RankText(START.squares, if c == White then 0 else 7, 0, 0) == if c == White then "RNBQKBNR" else "rnbqkbnr"
  {
    hide RankText, PieceChar, StartPiece, StartSquares;
    var b, r := START.squares, if c == White then 0 else 7;
    var t := if c == White then "RNBQKBNR" else "rnbqkbnr";
    forall i | 0 <= i < 8
      ensures b[At(r, i)] != Empty && PieceChar(b[At(r, i)]) == t[i]
    {
      HomeSquare(c, i);
      HomeLetter(c, i);
      assert HomeRow(c)[i].Man?;
    }
    FullRank(b, r, 0, t);
  }

  lemma StartPawnText(c: Color)
    ensures RankText(START.squares, if c == White then 1 else 6, 0, 0) == if c == White then "PPPPPPPP" else "pppppppp"
  {
    hide RankText;
    var b, r := START.squares, if c == White then 1 else 6;
    forall i | 0 <= i < 8
      ensures b[At(r, i)] == Man(c, Pawn)
    {
      assert b[At(r, i)] == StartPiece(At(r, i));
    }
    FullRank(b, r, 0, if c == White then "PPPPPPPP" else "pppppppp");
  }

  lemma StartGap(r: int)
    requires 2 <= r <= 5
    ensures RankText(START.squares, r, 0, 0) == "8"
  {
    hide RankText;
    forall i | 0 <= i < 8
      ensures START.squares[At(r, i)] == Empty
    {
      assert START.squares[At(r, i)] == StartPiece(At(r, i));
    }
    EmptyRank(START.squares, r, 0);
  }

  lemma PlacementStep(b: Placement, r: nat)
    requires 0 < r < 8
    ensures PlacementText(b, r) == RankText(b, r, 0, 0) + ("/" + PlacementText(b, r - 1))
  {
    hide RankText;
  }

  /** The starting text of the source denotes the initial array. */
  lemma StartingFenIsStart()
    ensures ToFen(START) == STARTING_FEN && ParseFen(STARTING_FEN) == Some(START)
  {
    hide RankText, ParseFen, PlacementText, Decimal, CastlingText, StartPiece, StartSquares;
    var b := START.squares;
    StartHomeText(White);
    StartPawnText(White);
    StartGap(2);
    StartGap(3);
    StartGap(4);
    StartGap(5);
    StartPawnText(Black);
    StartHomeText(Black);
    LastPlacement(b);
    PlacementStep(b, 1);
    PlacementStep(b, 2);
    PlacementStep(b, 3);
    PlacementStep(b, 4);
    PlacementStep(b, 5);
    PlacementStep(b, 6);
    PlacementStep(b, 7);
    SmallDecimals();
    StartCastlingText();
    FenRoundTrip(START);
  }

  lemma StartCastlingText()
    ensures CastlingText(START.rights) == "KQkq"
  {
  }

  lemma LastPlacement(b: Placement)
    ensures PlacementText(b, 0) == RankText(b, 0, 0, 0)
  {
    hide RankText;
  }

  lemma SmallDecimals()
    ensures Decimal(0) == "0" && Decimal(1) == "1"
  {
  }
}
