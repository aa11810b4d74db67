/**
 UCI move text, the stored game record built from it, and the replay that reads the record
 back against the legal moves of each position.
 */
module Uci {
  import opened Types
  import opened Rules
  import opened Reversal
  import opened Invariant
  import opened Zobrist
  import opened Text
  import opened BoardState
  import opened MoveGen
  import opened San

  // ---------------------------------------------------------------- move text

  function PromotionSuffix(m: Move): string {
    if !m.flags.promotion then "" else
      match m.promo
      case Some(Queen) => "q"
      case Some(Rook) => "r"
      case Some(Bishop) => "b"
      case Some(Knight) => "n"
      case _ => ""
  }

  /** Long algebraic text: origin, target, promotion letter. */
  function ToUci(m: Move): string {
    SquareName(m.from) + SquareName(m.to) + PromotionSuffix(m)
  }

  function SuffixKind(c: char): Option<Kind> {
    match Lower(c)
    case 'q' => Some(Queen)
    case 'r' => Some(Rook)
    case 'b' => Some(Bishop)
    case 'n' => Some(Knight)
    case _ => None
  }

  /** Reading UCI text; anything malformed is the default move. */
  function FromUci(t: string): Move {
    if |t| < 4 || |t| > 5 then NO_MOVE else
      var from, to := SquareOf(t[..2]), SquareOf(t[2..4]);
      if from == None || to == None then NO_MOVE
      else if |t| == 4 then Move(from.value, to.value, PLAIN, None)
      else if SuffixKind(t[4]) == None then NO_MOVE
      else Move(from.value, to.value, PROMOTION, SuffixKind(t[4]))
  }

  /** What the text keeps of a move: its squares and its promotion. */
  function Probe(m: Move): Move {
    if m.flags.promotion then Move(m.from, m.to, PROMOTION, m.promo) else Move(m.from, m.to, PLAIN, None)
  }

  lemma UciRoundTrip(m: Move)
    requires m.flags.promotion ==> PromotionKind(m.promo)
    ensures FromUci(ToUci(m)) == Probe(m)
  {
    var t := ToUci(m);
    assert t[..2] == SquareName(m.from);
    assert t[2..4] == SquareName(m.to);
    SquareNameRoundTrip(m.from);
    SquareNameRoundTrip(m.to);
  }

  lemma UciTextIsWord(m: Move)
    ensures IsWord(ToUci(m))
  {
  }

  // ---------------------------------------------------------------- resolving

  predicate Matches(probe: Move, m: Move) {
    m.from == probe.from && m.to == probe.to && (probe.flags.promotion ==> m.promo == probe.promo)
  }

  /** `r` answers a probe: a legal move that matches it, or the default move when none does. */
  ghost predicate Resolves(p: Position, probe: Move, r: Move) {
    if exists m: Move :: Legal(p, m) && Matches(probe, m) then Legal(p, r) && Matches(probe, r) else r == NO_MOVE
  }

  method ResolveLegal(b: Board, probe: Move) returns (r: Move)
    requires b.Valid() && Inv(b.View())
    ensures Resolves(b.View(), probe, r)
  {
    hide Inv, Legal;
    ghost var p := b.View();
    var legal := GenerateLegalMoves(b);
    for i := 0 to |legal|
      invariant forall j :: 0 <= j < i ==> !Matches(probe, legal[j])
    {
      r := legal[i];
      assert r in legal;
      if r.from != probe.from || r.to != probe.to {
        continue;
      }
      if probe.flags.promotion && r.promo != probe.promo {
        continue;
      }
      return;
    }
    assert forall m: Move :: Legal(p, m) ==> m in legal;
    r := NO_MOVE;
  }

  lemma LegalMoveChangesSquare(p: Position, m: Move)
    requires Inv(p) && Legal(p, m)
    ensures m.from != m.to
  {
    LegalMoveIsPlayable(p, m);
  }

  /** The probe of a legal move is answered by that move alone. */
  lemma ProbeFindsMove(p: Position, m: Move, r: Move)
    requires Inv(p) && Legal(p, m)
    ensures Resolves(p, Probe(m), r) <==> r == m
  {
    hide Inv, Legal, Shape;
    LegalMoveIsPlayable(p, m);
    PromotionFollowsFlag(p, m);
    assert Matches(Probe(m), m);
    if Legal(p, r) && Matches(Probe(m), r) {
      LegalMoveIsPlayable(p, r);
      PromotionFollowsFlag(p, r);
      SamePromotion(p, m, r);
      SameTargetSameMove(p, m, r);
    }
    LegalMoveChangesSquare(p, m);
  }

  /** Whether a move promotes is settled by its squares. */
  lemma SamePromotion(p: Position, m: Move, r: Move)
    requires Inv(p) && Legal(p, m) && Legal(p, r)
    requires Matches(Probe(m), r)
    ensures r.promo == m.promo
  {
    LegalMoveIsPlayable(p, m);
    LegalMoveIsPlayable(p, r);
    PromotesOnLastRank(p, m);
    PromotesOnLastRank(p, r);
  }

  lemma PromotesOnLastRank(p: Position, m: Move)
    requires NoEndPawns(p.squares) && RightsBacked(p) && Shape(p, m)
    ensures m.flags.promotion <==> p.squares[m.from].kind == Pawn && Rank(m.to) == LastRank(p.side)
    ensures m.flags.promotion <==> m.promo != None
  {
  }

  // ---------------------------------------------------------------- the stored game

  /** The record of a game: its moves in UCI, separated by spaces. */
  function GameText(ms: seq<Move>): string {
    Join(UciWords(ms))
  }

  function UciWords(ms: seq<Move>): (ws: seq<string>)
    ensures |ws| == |ms|
    ensures forall i :: 0 <= i < |ms| ==> ws[i] == ToUci(ms[i])
  {
    if ms == [] then [] else [ToUci(ms[0])] + UciWords(ms[1..])
  }

  lemma JoinNothing()
    ensures Join([]) == ""
  {
  }

  lemma {:induction false} JoinSnoc(ws: seq<string>, w: string)
    ensures Join(ws + [w]) == if ws == [] then w else Join(ws) + " " + w
  {
    if |ws| > 1 {
      JoinSnoc(ws[1..], w);
      assert (ws + [w])[1..] == ws[1..] + [w];
    } else if |ws| == 1 {
      assert (ws + [w])[1..] == [w];
    } else {
      assert ws + [w] == [w];
    }
  }

  /** Building the record move by move. */
  method WriteGame(history: seq<Move>) returns (text: string)
    ensures text == GameText(history)
  {
    hide ToUci, Join;
    text := "";
    ghost var words := UciWords(history);
    assert Join([]) == "" by { JoinNothing(); }
    assert words[..0] == [];
    for i := 0 to |history|
      invariant text == Join(words[..i])
    {
      JoinSnoc(words[..i], words[i]);
      assert words[..i + 1] == words[..i] + [words[i]];
      if i > 0 {
        text := text + " ";
      }
      text := text + ToUci(history[i]);
    }
    assert words[..|history|] == words;
  }

  /** A replay either rebuilds every position, or names the ply that could not be resolved. */
  datatype ReplayResult =
    | Rebuilt(moves: seq<Move>, positions: seq<Position>)
    | Corrupt(ply: nat, moves: seq<Move>)

  /** `ms` are legal moves from the start that answer the words in order. */
  ghost predicate Answers(words: seq<string>, ms: seq<Move>) {
    && |ms| <= |words|
    && LegalLine(START, ms)
    && forall i :: 0 <= i < |ms| ==> Matches(FromUci(words[i]), ms[i])
  }

  /** `ps` are the positions before the first and after every one of `ms`. */
  ghost predicate PositionsOf(ms: seq<Move>, ps: seq<Position>) {
    |ps| == |ms| + 1 && forall i :: 0 <= i < |ps| ==> ps[i] == Replay(START, ms[..i])
  }

  ghost predicate IsReplayOf(words: seq<string>, r: ReplayResult) {
    match r
    case Rebuilt(ms, ps) => |ms| == |words| && Answers(words, ms) && PositionsOf(ms, ps)
    case Corrupt(ply, ms) =>
      && |ms| + 1 == ply && |ms| < |words| && Answers(words, ms)
      && forall m: Move :: Legal(Replay(START, ms), m) ==> !Matches(FromUci(words[|ms|]), m)
  }

  lemma LegalLineSnoc(p: Position, ms: seq<Move>, m: Move)
    requires LegalLine(p, ms) && Legal(Replay(p, ms), m)
    ensures LegalLine(p, ms + [m]) && Replay(p, ms + [m]) == Apply(Replay(p, ms), m)
  {
    assert (ms + [m])[..|ms|] == ms;
  }

  lemma AnswersSnoc(words: seq<string>, ms: seq<Move>, ps: seq<Position>, m: Move)
    requires Answers(words, ms) && |ms| < |words| && PositionsOf(ms, ps)
    requires Legal(Replay(START, ms), m) && Matches(FromUci(words[|ms|]), m)
    ensures Answers(words, ms + [m])
    ensures Replay(START, ms + [m]) == Apply(Replay(START, ms), m)
    ensures PositionsOf(ms + [m], ps + [Replay(START, ms + [m])])
  {
    hide Legal, Apply, Matches, FromUci;
    var ms' := ms + [m];
    LegalLineSnoc(START, ms, m);
    assert ms'[..|ms'|] == ms';
    assert forall j :: 0 <= j <= |ms| ==> ms'[..j] == ms[..j];
  }

  /** Splits the record and replays it on a mutable board. */
  method ReplayGame(ks: Keys, text: string) returns (r: ReplayResult)
    ensures IsReplayOf(Words(text), r)
  {
    hide Legal, Inv, Apply, Answers, PositionsOf, Playable, Shape, Resolves, FromUci;
    var board := new Board.StartingPosition(ks);
    var words := Split(text);
    var ms: seq<Move> := [];
    var ps := [board.View()];
    StartSatisfiesInvariant();
    ReplayStarts(words, ps);
    for i := 0 to |words|
      invariant board.Valid() && fresh(board) && fresh(board.squares)
      invariant |ms| == i && Answers(words, ms) && PositionsOf(ms, ps)
      invariant board.View() == Replay(START, ms) && Inv(board.View())
    {
      ghost var p := board.View();
      var probe := FromUci(words[i]);
      var m := ResolveLegal(board, probe);
      if m.from == 0 && m.to == 0 {
        NoMoveMeansNoMatch(p, probe, m);
        return Corrupt(i + 1, ms);
      }
      ResolvedIsLegal(p, probe, m);
      AnswersSnoc(words, ms, ps, m);
      var _ := board.MakeMove(m);
      ms := ms + [m];
      ps := ps + [board.View()];
    }
    return Rebuilt(ms, ps);
  }

  lemma ReplayStarts(words: seq<string>, ps: seq<Position>)
    requires ps == [START]
    ensures Answers(words, []) && PositionsOf([], ps) && Replay(START, []) == START
  {
    var none: seq<Move> := [];
    assert none[..0] == none;
  }

  lemma ResolvedIsLegal(p: Position, probe: Move, m: Move)
    requires Inv(p) && Resolves(p, probe, m) && !(m.from == 0 && m.to == 0)
    ensures Legal(p, m) && Matches(probe, m) && Playable(p, m) && Inv(Apply(p, m))
  {
    LegalMoveIsPlayable(p, m);
    LegalMoveKeepsInvariant(p, m);
  }

  lemma NoMoveMeansNoMatch(p: Position, probe: Move, r: Move)
    requires Inv(p) && Resolves(p, probe, r) && r.from == r.to
    ensures forall m: Move :: Legal(p, m) ==> !Matches(probe, m)
  {
    if m: Move :| Legal(p, m) && Matches(probe, m) {
      LegalMoveChangesSquare(p, r);
    }
  }

  /** One printed move is answered by itself. */
  lemma PrintedMoveAnswered(p: Position, m: Move, r: Move)
    requires Inv(p) && Legal(p, m) && Legal(p, r) && Matches(FromUci(ToUci(m)), r)
    ensures r == m
  {
    hide Legal, FromUci, ToUci, Inv;
    PrintedProbe(p, m);
    ProbeFindsMove(p, m, r);
  }

  /** Answers to the words of a legal game are the game itself, as far as they go. */
  lemma {:induction false} AnswersAreTheGame(ms: seq<Move>, rs: seq<Move>)
    requires LegalLine(START, ms) && |rs| <= |ms| && Answers(UciWords(ms), rs)
    ensures rs == ms[..|rs|]
    decreases |rs|
  {
    hide *;
    if rs != [] {
      var n := |rs| - 1;
      AnswersPrefix(UciWords(ms), rs);
      AnswersAreTheGame(ms, rs[..n]);
      LinePrefix(START, ms, n);
      ReachablePositionsSatisfyInvariant(ms[..n]);
      PrintedMoveAnswered(Replay(START, ms[..n]), ms[n], rs[n]);
      assert rs == rs[..n] + [rs[n]];
      assert ms[..n + 1] == ms[..n] + [ms[n]];
    }
  }

  lemma PrintedProbe(p: Position, m: Move)
    requires Inv(p) && Legal(p, m)
    ensures FromUci(ToUci(m)) == Probe(m)
  {
    LegalMoveIsPlayable(p, m);
    PromotionFollowsFlag(p, m);
    UciRoundTrip(m);
  }

  lemma AnswersPrefix(words: seq<string>, rs: seq<Move>)
    requires Answers(words, rs) && rs != []
    ensures Answers(words, rs[..|rs| - 1])
    ensures Legal(Replay(START, rs[..|rs| - 1]), rs[|rs| - 1])
    ensures Matches(FromUci(words[|rs| - 1]), rs[|rs| - 1])
  {
    hide Legal, Apply, Matches, FromUci;
  }

  lemma {:induction false} LinePrefix(p: Position, ms: seq<Move>, n: nat)
    requires LegalLine(p, ms) && n <= |ms|
    ensures LegalLine(p, ms[..n])
    ensures n < |ms| ==> Legal(Replay(p, ms[..n]), ms[n])
    decreases |ms|
  {
    hide Legal, Apply;
    if n < |ms| {
      var short := ms[..|ms| - 1];
      if n < |ms| - 1 {
        LinePrefix(p, short, n);
        assert short[..n] == ms[..n];
      }
    } else {
      assert ms[..n] == ms;
    }
  }

  /**
   Every game of legal moves from the start, written as the server stores it, is rebuilt by
   the replay: the same moves with their flags, and the same position after every ply.
   */
  lemma StoredGameReplays(ms: seq<Move>, r: ReplayResult)
    requires LegalLine(START, ms)
    requires IsReplayOf(Words(GameText(ms)), r)
    ensures r.Rebuilt? && r.moves == ms && PositionsOf(ms, r.positions)
  {
    hide Legal, Matches, FromUci, ToUci, Words, Replay, LegalLine, Join;
    var words := UciWords(ms);
    forall i | 0 <= i < |words|
      ensures IsWord(words[i])
    {
      UciTextIsWord(ms[i]);
    }
    SplitUndoesJoin(words);
    AnswersAreTheGame(ms, r.moves);
    assert ms[..|ms|] == ms;
    if r.Corrupt? {
      NextMoveAnswers(ms, |r.moves|);
    }
  }

  lemma NextMoveAnswers(ms: seq<Move>, n: nat)
    requires LegalLine(START, ms) && n < |ms|
    ensures Legal(Replay(START, ms[..n]), ms[n]) && Matches(FromUci(ToUci(ms[n])), ms[n])
  {
    hide Legal, FromUci, ToUci, Inv;
    LinePrefix(START, ms, n);
    ReachablePositionsSatisfyInvariant(ms[..n]);
    PrintedProbe(Replay(START, ms[..n]), ms[n]);
  }
}
