/** Alpha-beta search on one mutable board, under a deadline that may fire at any check. */
module Engine {
  import opened Types
  import opened Rules
  import opened Reversal
  import opened Invariant
  import opened Zobrist
  import opened BoardState
  import opened MoveSets
  import opened MoveGen
  import opened San
  import opened Evaluator
  import opened Minimax
  import opened TranspositionTable
  import opened Ordering
  import opened Clockless

  // ---------------------------------------------------------------- progress of the two move loops

  /** What one quiescence move is worth to the mover. */
  ghost function QuietGain(p: Position, m: Move, ply: int): int {
    -QuietValue(Apply(p, m), ply + 1)
  }

  /** What one move of a full-width node is worth to the mover. */
  ghost function Gain(p: Position, m: Move, depth: nat, ply: int): int
    requires depth > 0
  {
    -Negamax(Apply(p, m), depth - 1, ply + 1)
  }

  /** After the moves of `done`: nothing beats alpha, and a raised alpha has been attained. */
  ghost predicate QuietProgress(p: Position, ply: int, done: seq<Move>, alpha0: int, alpha: int) {
    && (forall m: Move :: m in done && m in QuietMoves(p) ==> QuietGain(p, m, ply) <= alpha)
    && (!InCheck(p.squares, p.side) ==> Evaluation(p) <= alpha)
    && (alpha > alpha0 ==>
          || (!InCheck(p.squares, p.side) && alpha == Evaluation(p))
          || exists m: Move :: m in QuietMoves(p) && alpha == QuietGain(p, m, ply))
  }

  lemma QuietDone(p: Position, ply: int, ms: seq<Move>, alpha0: int, alpha: int, beta: int)
    requires p.halfmove < 100 && ply < MAX_PLY && !Terminal(p)
    requires forall m: Move :: Legal(p, m) ==> m in ms
    requires alpha0 <= alpha < beta && QuietProgress(p, ply, ms, alpha0, alpha)
    ensures InWindow(alpha, QuietValue(p, ply), alpha0, beta)
  {
    hide Legal, Apply, InCheck, Evaluation, QuietValue;
    QuietUnfolds(p, ply);
  }

  lemma QuietCutoff(p: Position, ply: int, m: Move, score: int, alpha: int, alpha0: int, beta: int)
    requires p.halfmove < 100 && ply < MAX_PLY && m in QuietMoves(p)
    requires InWindow(score, QuietGain(p, m, ply), alpha, beta) && score >= beta > alpha0
    ensures InWindow(score, QuietValue(p, ply), alpha0, beta)
  {
    hide Apply, InCheck, Evaluation, QuietValue;
    assert !Terminal(p);
    QuietUnfolds(p, ply);
  }

  lemma QuietAdvance(p: Position, ply: int, done: seq<Move>, m: Move, score: int, alpha0: int, alpha: int, beta: int)
    requires QuietProgress(p, ply, done, alpha0, alpha) && alpha0 <= alpha && m in QuietMoves(p)
    requires InWindow(score, QuietGain(p, m, ply), alpha, beta) && score < beta
    ensures QuietProgress(p, ply, done + [m], alpha0, if score > alpha then score else alpha)
  {
    hide Legal, Apply, InCheck, Evaluation, QuietValue, QuietGain;
  }

  lemma QuietSkip(p: Position, ply: int, done: seq<Move>, m: Move, alpha0: int, alpha: int)
    requires QuietProgress(p, ply, done, alpha0, alpha) && m !in QuietMoves(p)
    ensures QuietProgress(p, ply, done + [m], alpha0, alpha)
  {
    hide Legal, Apply, InCheck, Evaluation, QuietValue, QuietGain;
  }

  lemma QuietBegin(p: Position, ply: int, alpha0: int, alpha: int)
    requires InCheck(p.squares, p.side) ==> alpha == alpha0
    requires !InCheck(p.squares, p.side) ==> alpha == if Evaluation(p) > alpha0 then Evaluation(p) else alpha0
    ensures QuietProgress(p, ply, [], alpha0, alpha)
  {
    hide Legal, Apply, InCheck, Evaluation, QuietValue;
  }

  lemma StandPatCutoff(p: Position, ply: int, alpha0: int, beta: int)
    requires p.halfmove < 100 && ply < MAX_PLY && !Terminal(p) && !InCheck(p.squares, p.side)
    requires Evaluation(p) >= beta > alpha0
    ensures InWindow(Evaluation(p), QuietValue(p, ply), alpha0, beta)
  {
    hide Legal, Apply, InCheck, Evaluation, QuietValue;
    QuietUnfolds(p, ply);
  }

  /**
   A window the search answers soundly: any window at all for a node whose values are known to
   be finite, and any window between the two infinities for the rest.
   */
  predicate Window(alpha: int, beta: int, depth: nat, ply: nat) {
    alpha < beta && (ply + depth < PLY_LIMIT || -SCORE_INFINITY <= alpha < beta <= SCORE_INFINITY)
  }

  /** After the moves of `done`: nothing beats `best`, and a `best` above alpha has been attained or cuts. */
  ghost predicate Progress(p: Position, depth: nat, ply: int, done: seq<Move>, alpha0: int, best: int, beta: int)
    requires depth > 0
  {
    && (done == [] ==> best == -SCORE_INFINITY)
    && (best < beta ==> forall m: Move :: m in done ==> Gain(p, m, depth, ply) <= best)
    && (done != [] && alpha0 < best < beta ==> exists m: Move :: Legal(p, m) && best == Gain(p, m, depth, ply))
    && (done != [] && best >= beta ==> exists m: Move :: Legal(p, m) && Gain(p, m, depth, ply) >= best)
  }

  /** Alpha before the next move of a loop that has not cut off. */
  ghost predicate Lower(done: seq<Move>, alpha0: int, alpha: int, best: int, beta: int) {
    if done == [] then alpha == alpha0 < beta else alpha == Higher(alpha0, best) < beta
  }

  lemma Advance(p: Position, depth: nat, ply: nat, done: seq<Move>, m: Move, score: int,
                alpha0: int, alpha: int, best: int, beta: int)
    requires Inv(p) && depth > 0 && Progress(p, depth, ply, done, alpha0, best, beta) && Legal(p, m)
    requires Window(alpha0, beta, depth, ply) && Lower(done, alpha0, alpha, best, beta)
    requires InWindow(score, Gain(p, m, depth, ply), alpha, beta)
    ensures Progress(p, depth, ply, done + [m], alpha0, Higher(best, score), beta)
    ensures Higher(alpha, score) < beta ==> Lower(done + [m], alpha0, Higher(alpha, score), Higher(best, score), beta)
    ensures Higher(alpha, score) >= beta ==> Higher(best, score) >= beta
  {
    hide Inv, Legal, Apply, Negamax, Gain;
    if ply + depth < PLY_LIMIT {
      GainIsFinite(p, m, depth, ply);
    }
  }

  lemma Finished(p: Position, depth: nat, ply: int, ms: seq<Move>, alpha0: int, best: int, beta: int)
    requires depth > 0 && p.halfmove < 100 && !Terminal(p) && alpha0 < beta && ms != []
    requires best < beta ==> forall m: Move :: Legal(p, m) ==> m in ms
    requires Progress(p, depth, ply, ms, alpha0, best, beta)
    ensures InWindow(best, Negamax(p, depth, ply), alpha0, beta)
  {
    hide Legal, Apply, Negamax;
    NegamaxUnfolds(p, depth, ply);
  }

  /** After the root moves of `done`: `best` is the greatest gain, and `move` attains it. */
  ghost predicate RootProgress(p: Position, depth: nat, done: seq<Move>, best: int, move: Move)
    requires depth > 0
  {
    && (done == [] ==> best == -SCORE_INFINITY)
    && (done != [] ==> Legal(p, move) && Gain(p, move, depth, 0) == best)
    && (forall m: Move :: m in done ==> Gain(p, m, depth, 0) <= best)
    && best < SCORE_INFINITY
  }

  lemma GainIsFinite(p: Position, m: Move, depth: nat, ply: nat)
    requires Inv(p) && Legal(p, m) && depth > 0 && ply + depth < PLY_LIMIT
    ensures Finite(Gain(p, m, depth, ply))
  {
    hide Inv, Legal, Apply, Negamax;
    LegalMoveKeepsInvariant(p, m);
    NegamaxIsFinite(Apply(p, m), depth - 1, ply + 1);
  }

  lemma RootAdvance(p: Position, depth: nat, done: seq<Move>, m: Move, score: int, best: int, move: Move)
    requires Inv(p) && 0 < depth < PLY_LIMIT && Legal(p, m)
    requires RootProgress(p, depth, done, best, move)
    requires InWindow(score, Gain(p, m, depth, 0), best, SCORE_INFINITY)
    ensures RootProgress(p, depth, done + [m], if score > best then score else best, if score > best then m else move)
  {
    hide Inv, Legal, Gain;
    GainIsFinite(p, m, depth, 0);
  }

  lemma RootFinished(p: Position, depth: nat, ms: seq<Move>, best: int, move: Move)
    requires depth > 0 && ms != [] && forall m: Move :: m in ms <==> Legal(p, m)
    requires RootProgress(p, depth, ms, best, move)
    ensures best == RootValue(p, depth) && Legal(p, move) && Gain(p, move, depth, 0) == best
  {
    hide Legal, Negamax, Apply;
    assert ms[0] in ms;
    SomeLegalMove(p);
    var f := m => -Negamax(Apply(p, m), depth - 1, 1);
    var v := MaxOver(LegalSet(p), f);
  }

  lemma RootNothing(p: Position, depth: nat, move: Move)
    requires depth > 0
    ensures RootProgress(p, depth, [], -SCORE_INFINITY, move)
  {
  }

  /** The score and move are those of a full search to the reported depth. */
  ghost predicate ResultExact(p: Position, r: SearchResult) {
    r.depth > 0 ==> r.score == RootValue(p, r.depth) && Legal(p, r.best) && Gain(p, r.best, r.depth, 0) == r.score
  }

  // ---------------------------------------------------------------- the engine

  class Search {
    const keys: Keys
    const tt: Table
    var board: Board
    var nodes: int
    /** How many times the clock has been read, and the first reading that finds the time up. */
    var ticks: nat
    var deadline: Option<nat>
    /** Some table probe has ended a node early. */
    ghost var cut: bool
    /** The table at the start of the search, and every store made since. */
    ghost var base: seq<Entry>
    ghost var log: seq<Filed>

    constructor (ks: Keys, slots: nat)
      requires slots > 0
      ensures keys == ks && Ready() && TableHonest() && !cut && Books()
      ensures fresh(tt) && fresh(tt.entries) && fresh(board) && fresh(board.squares)
      ensures board.View() == START
    {
      hide Hash;
      keys := ks;
      tt := new Table(slots);
      board := new Board.StartingPosition(ks);
      nodes := 0;
      ticks := 0;
      deadline := None;
      cut := false;
      log := [];
      new;
      base := tt.entries[..];
    }

    ghost predicate Ready()
      reads this, tt, board
    {
      && tt.Valid()
      && Searchable(board)
    }

    /** The board is a well-formed board of this engine. */
    ghost predicate Searchable(b: Board)
    {
      && b.Valid() && b.keys == keys
      && b.squares as object != tt.entries
    }

    /** The position to search from is copied. */
    method SetPosition(b: Board)
      requires b.Valid() && b.keys == keys && tt.Valid()
      modifies this`board
      ensures Ready() && fresh(board) && fresh(board.squares)
      ensures board.View() == b.View() && board.key == b.key
    {
      board := new Board.Copy(b);
    }

    /** As long as no probe has cut a node off, every table entry is true. */
    ghost predicate TableHonest()
      reads this`cut, tt`origins, tt.entries
    {
      !cut ==> tt.Sound(keys)
    }

    /**
     The books of the search: the table is the one at the start with the stores of the log made
     in turn and nothing else.  Each of them files a completed search of its node, begun and
     ended with the tables of its time, and was made before the clock was found up.
     */
    ghost predicate Books()
      reads this`base, this`log, this`deadline, tt`age, tt.entries
    {
      && |base| == tt.entries.Length > 0
      && tt.entries[..] == Replayed(keys, tt.age, base, log)
      && Orderly(keys, tt.age, base, log, deadline)
    }

    lemma BooksReplay()
      requires Books()
      ensures tt.entries[..] == Replayed(keys, tt.age, base, log)
    {
    }

    /** Some reading of the clock has found the time up. */
    ghost predicate Fired()
      reads this
    {
      deadline.Some? && ticks > deadline.value
    }

    /** Reading the clock; once the time is up it stays up. */
    method TimeUp() returns (up: bool)
      modifies this`ticks
      ensures ticks == old(ticks) + 1
      ensures up <==> Fired()
    {
      up := deadline.Some? && ticks >= deadline.value;
      ticks := ticks + 1;
    }

    // ---- quiescence

    /** Plays one quiescence move, searches behind it and takes it back. */
    method QuietMove(b: Board, m: Move, ply: nat, alpha: int, beta: int) returns (score: int)
      requires b.Valid() && Inv(b.View()) && Legal(b.View(), m) && ply < MAX_PLY
      modifies this`nodes, this`ticks, b, b.squares
      ensures b.View() == old(b.View()) && b.key == old(b.key) && ticks >= old(ticks)
      ensures !Fired() && alpha < beta ==> InWindow(score, QuietGain(b.View(), m, ply), alpha, beta)
      ensures !Fired() ==> QuietAnswers(Apply(b.View(), m), ply + 1, -beta, -alpha, -score)
      decreases MAX_PLY - ply, 0
    {
      hide Inv, Legal, Apply, Retract, Playable, Shape, QuietValue, QuietAnswers, InWindow;
      ghost var p := b.View();
      LegalMoveIsPlayable(p, m);
      LegalMoveKeepsInvariant(p, m);
      RetractUndoesApply(p, m, b.key);
      EnPassantTakesBack(p, m);
      var undo := b.MakeMove(m);
      var reply := Quiescence(b, ply + 1, -beta, -alpha);
      score := -reply;
      if !Fired() && alpha < beta {
        NegatedWindow(reply, QuietValue(Apply(p, m), ply + 1), alpha, beta);
      }
      b.UndoMove(m, undo);
    }

    method Quiescence(b: Board, ply: nat, alpha0: int, beta: int) returns (r: int)
      requires b.Valid() && Inv(b.View())
      modifies this`nodes, this`ticks, b, b.squares
      ensures b.View() == old(b.View()) && b.key == old(b.key) && ticks >= old(ticks)
      ensures !Fired() && alpha0 < beta ==> InWindow(r, QuietValue(b.View(), ply), alpha0, beta)
      ensures !Fired() ==> QuietAnswers(b.View(), ply, alpha0, beta, r)
      decreases if ply < MAX_PLY then MAX_PLY - ply else 0, 2
    {
      hide Inv, Legal, InCheck, Evaluation, QuietValue, Terminal, QuietProgress, QuietAnswers, QuietSearched, Listing, Ordered, NoDuplicates;
      nodes := nodes + 1;
      var up := TimeUp();
      if up {
        return 0;
      }
      ghost var p := b.View();
      var moves := GenerateLegalMoves(b);
      var checked := IsInCheck(b, b.side);
      TerminalIffNoMoves(p, moves);
      if moves == [] {
        QuietLeaf(p, ply);
        QuietLeafAnswers(p, ply, alpha0, beta);
        return if checked then -(SCORE_MATE - ply) else SCORE_DRAW;
      }
      if b.halfmove >= 100 {
        QuietLeaf(p, ply);
        QuietLeafAnswers(p, ply, alpha0, beta);
        return SCORE_DRAW;
      }
      if ply >= MAX_PLY {
        QuietLeaf(p, ply);
        QuietLeafAnswers(p, ply, alpha0, beta);
        r := Evaluate(b);
        return;
      }
      var alpha := alpha0;
      if !checked {
        var standPat := Evaluate(b);
        if standPat >= beta {
          StandPatAnswers(p, ply, alpha0, beta);
          if alpha0 < beta {
            StandPatCutoff(p, ply, alpha0, beta);
          }
          return standPat;
        }
        alpha := if standPat > alpha then standPat else alpha;
      }
      QuietBegin(p, ply, alpha0, alpha);
      var order := Arrange(b, moves, NO_MOVE);
      r := QuietLoop(b, order, checked, ply, alpha0, alpha, beta);
      if !Fired() {
        QuietExpanded(p, ply, alpha0, alpha, beta, order, r);
      }
    }

    /** The loop over the moves of a quiescence node, from the alpha that standing pat left. */
    method QuietLoop(b: Board, moves: seq<Move>, checked: bool, ply: nat, ghost alpha0: int, alpha1: int, beta: int) returns (r: int)
      requires b.Valid() && Inv(b.View()) && ply < MAX_PLY && b.halfmove < 100
      requires forall m: Move :: m in moves <==> Legal(b.View(), m)
      requires !Terminal(b.View()) && (checked <==> InCheck(b.squares[..], b.side))
      requires alpha0 <= alpha1 && (alpha0 < beta ==> alpha1 < beta) && QuietProgress(b.View(), ply, [], alpha0, alpha1)
      modifies this`nodes, this`ticks, b, b.squares
      ensures b.View() == old(b.View()) && b.key == old(b.key) && ticks >= old(ticks)
      ensures !Fired() && alpha0 < beta ==> InWindow(r, QuietValue(b.View(), ply), alpha0, beta)
      ensures !Fired() ==> QuietSearched(b.View(), ply, alpha1, beta, moves, r)
      decreases MAX_PLY - ply, 1
    {
      hide Inv, Legal, InCheck, Evaluation, QuietValue, QuietGain, Terminal, QuietProgress, InWindow;
      hide QuietMoves, QuietAnswers, QuietReaches, QuietSearched, QuietCuts;
      ghost var p, key := b.View(), b.key;
      var alpha := alpha1;
      assert moves[..0] == [];
      QuietReachesNothing(p, ply, alpha1, beta);
      for i := 0 to |moves|
        invariant b.View() == p && b.key == key && ticks >= old(ticks)
        invariant alpha0 <= alpha && (alpha0 < beta ==> alpha < beta)
        invariant !Fired() && alpha0 < beta ==> QuietProgress(p, ply, moves[..i], alpha0, alpha)
        invariant !Fired() ==> QuietReaches(p, ply, alpha1, beta, moves[..i], alpha)
      {
        var m := moves[i];
        assert m in moves && moves[..i + 1] == moves[..i] + [m];
        var quiet := IsQuiet(b, m, checked);
        if quiet {
          if !Fired() {
            QuietReachesSkip(p, ply, alpha1, beta, moves[..i], m, alpha);
          }
          if !Fired() && alpha0 < beta {
            QuietSkip(p, ply, moves[..i], m, alpha0, alpha);
          }
          continue;
        }
        var score := QuietMove(b, m, ply, alpha, beta);
        var up := TimeUp();
        if up {
          return 0;
        }
        if score >= beta {
          QuietCut(p, ply, alpha1, beta, moves, i, alpha, score);
          if alpha0 < beta {
            QuietCutoff(p, ply, m, score, alpha, alpha0, beta);
          }
          return score;
        }
        QuietReachesStep(p, ply, alpha1, beta, moves[..i], m, alpha, score);
        if alpha0 < beta {
          QuietAdvance(p, ply, moves[..i], m, score, alpha0, alpha, beta);
        }
        alpha := if score > alpha then score else alpha;
      }
      assert moves[..|moves|] == moves;
      if !Fired() {
        QuietEnd(p, ply, alpha1, beta, moves, alpha);
      }
      if !Fired() && alpha0 < beta {
        QuietDone(p, ply, moves, alpha0, alpha, beta);
      }
      return alpha;
    }

    /** Quiet moves are skipped unless in check. */
    method IsQuiet(b: Board, m: Move, checked: bool) returns (quiet: bool)
      requires b.Valid() && Legal(b.View(), m) && (checked <==> InCheck(b.squares[..], b.side))
      ensures quiet <==> m !in QuietMoves(b.View())
    {
      hide Legal, InCheck;
      assert b.View().squares[m.to] == b.squares[m.to];
      quiet := !checked && b.squares[m.to] == Empty && !m.flags.enPassant && !m.flags.promotion;
    }

    // ---- full-width search

    /** Plays one move, searches behind it with the negated window and takes it back. */
    method TryMove(b: Board, m: Move, depth: nat, ply: nat, alpha: int, beta: int) returns (score: int)
      requires tt.Valid() && Searchable(b) && Inv(b.View()) && b.Keyed() && Legal(b.View(), m)
      requires depth > 0 && (cut || Window(alpha, beta, depth, ply))
      modifies this`nodes, this`ticks, this`cut, this`log, tt`origins, tt.entries, b, b.squares
      ensures tt.Valid() && b.View() == old(b.View()) && b.key == old(b.key)
      ensures ticks >= old(ticks) && (old(cut) ==> cut)
      ensures old(TableHonest()) ==> TableHonest()
      ensures old(Books()) ==> Books()
      ensures Extends(old(log), log)
      ensures old(Fired()) ==> tt.entries[..] == old(tt.entries[..]) && log == old(log)
      ensures !Fired() && !cut ==> InWindow(score, Gain(b.View(), m, depth, ply), alpha, beta)
      ensures !Fired() ==> Answers(keys, tt.age, Inner(Apply(b.View(), m), depth - 1, ply + 1, -beta, -alpha),
                                   old(tt.entries[..]), -score, tt.entries[..])
      decreases depth - 1, 3
    {
      hide Inv, Legal, Apply, Retract, Playable, Shape, Negamax, Hash, AllTrue, InWindow, Answers, Complete, Replayed, Books, TableHonest, Extends;
      ghost var p := b.View();
      LegalMoveIsPlayable(p, m);
      LegalMoveKeepsInvariant(p, m);
      RetractUndoesApply(p, m, b.key);
      EnPassantTakesBack(p, m);
      var undo := b.MakeMove(m);
      var reply := AlphaBeta(b, depth - 1, ply + 1, -beta, -alpha);
      score := -reply;
      if !Fired() && !cut {
        NegatedWindow(reply, Negamax(Apply(p, m), depth - 1, ply + 1), alpha, beta);
      }
      b.UndoMove(m, undo);
    }

    /**
     Without an abort and without a table cutoff the result is a sound answer for the window;
     without an abort it is an answer of the clockless search, and so is the table.  Whatever
     happens, the board comes back as it was, and once the time is up the table stands still.
     */
    method AlphaBeta(b: Board, depth: nat, ply: nat, alpha0: int, beta: int) returns (r: int)
      requires tt.Valid() && Searchable(b) && Inv(b.View()) && b.Keyed()
      requires cut || Window(alpha0, beta, depth, ply)
      modifies this`nodes, this`ticks, this`cut, this`log, tt`origins, tt.entries, b, b.squares
      ensures tt.Valid() && b.View() == old(b.View()) && b.key == old(b.key)
      ensures ticks >= old(ticks) && (old(cut) ==> cut)
      ensures old(TableHonest()) ==> TableHonest()
      ensures old(Books()) ==> Books()
      ensures Extends(old(log), log)
      ensures old(Fired()) ==> tt.entries[..] == old(tt.entries[..]) && log == old(log)
      ensures !Fired() && !cut ==> InWindow(r, Negamax(b.View(), depth, ply), alpha0, beta)
      ensures !Fired() ==> Answers(keys, tt.age, Inner(b.View(), depth, ply, alpha0, beta), old(tt.entries[..]), r, tt.entries[..])
      decreases depth, 2
    {
      hide Inv, Negamax, Hash, AllTrue, InWindow, QuietValue, Answers, QuietAnswers, Complete, Replayed, Hit, MoveIn, ScoreIn;
      hide Extends, Books, TableHonest;
      ExtendsNothing(log);
      nodes := nodes + 1;
      var up := TimeUp();
      if up {
        return 0;
      }
      ghost var p, n, es := b.View(), Inner(b.View(), depth, ply, alpha0, beta), tt.entries[..];
      var done, score, ttMove := Shortcut(b, depth, ply, alpha0, beta);
      if done {
        return score;
      }
      if depth == 0 {
        LeafNode(p, ply);
        r := Quiescence(b, ply, alpha0, beta);
        if !Fired() {
          LeafAnswers(keys, tt.age, n, es, r);
        }
        return;
      }
      r := Expand(b, depth, ply, alpha0, beta, ttMove);
    }

    /** What answers a node before it is looked into: the fifty-move count, and below the root the table. */
    method Shortcut(b: Board, depth: nat, ply: nat, alpha0: int, beta: int) returns (done: bool, r: int, ttMove: Move)
      requires tt.Valid() && b.Valid() && b.keys == keys && b.Keyed()
      modifies this`cut
      ensures old(cut) ==> cut
      ensures old(TableHonest()) ==> TableHonest()
      ensures done && !cut ==> InWindow(r, Negamax(b.View(), depth, ply), alpha0, beta)
      ensures done ==> Answers(keys, tt.age, Inner(b.View(), depth, ply, alpha0, beta), tt.entries[..], r, tt.entries[..])
      ensures !done ==> b.halfmove < 100 && ttMove == MoveIn(tt.entries[..], b.key, NO_MOVE)
      ensures !done && ply > 0 ==> !Hit(tt.entries[..], b.key, depth, ply, alpha0, beta)
    {
      hide Inv, Negamax, Hash, AllTrue, InWindow, Answers, QuietAnswers, Hit, MoveIn, ScoreIn;
      ghost var p, n, es := b.View(), Inner(b.View(), depth, ply, alpha0, beta), tt.entries[..];
      done, r, ttMove := false, 0, NO_MOVE;
      if b.halfmove >= 100 {
        FiftyMoveNode(p, depth, ply, alpha0, beta);
        LeafAnswers(keys, tt.age, n, es, SCORE_DRAW);
        return true, SCORE_DRAW, NO_MOVE;
      }
      if ply > 0 {
        var hit, score, move := tt.Probe(b.key, depth, ply, alpha0, beta);
        if hit {
          cut := true;
          LeafAnswers(keys, tt.age, n, es, score);
          return true, score, move;
        }
        ttMove := move;
      } else {
        ttMove := tt.ProbeMove(b.key, ttMove);
      }
    }

    /** The legal moves sorted, the table's move first. */
    method Arrange(b: Board, moves: seq<Move>, ttMove: Move) returns (order: seq<Move>)
      requires b.Valid() && NoDuplicates(moves) && forall m: Move :: m in moves <==> Legal(b.View(), m)
      ensures Listing(b.View(), order, ttMove) && NoDuplicates(order) && |order| == |moves|
      ensures forall m: Move :: m in order <==> Legal(b.View(), m)
    {
      hide Legal, Listing, Ordered, NoDuplicates;
      order := OrderMoves(moves, b, ttMove);
      Listed(b.View(), moves, order, ttMove);
    }

    /** An inner node that no test and no entry has answered: mate, stalemate, or its moves in order. */
    method Expand(b: Board, depth: nat, ply: nat, alpha0: int, beta: int, ttMove: Move) returns (r: int)
      requires tt.Valid() && Searchable(b) && Inv(b.View()) && b.Keyed() && b.halfmove < 100
      requires depth > 0 && (cut || Window(alpha0, beta, depth, ply))
      requires ttMove == MoveIn(tt.entries[..], b.key, NO_MOVE)
      requires ply > 0 ==> !Hit(tt.entries[..], b.key, depth, ply, alpha0, beta)
      modifies this`nodes, this`ticks, this`cut, this`log, tt`origins, tt.entries, b, b.squares
      ensures tt.Valid() && b.View() == old(b.View()) && b.key == old(b.key)
      ensures ticks >= old(ticks) && (old(cut) ==> cut)
      ensures old(TableHonest()) ==> TableHonest()
      ensures old(Books()) ==> Books()
      ensures Extends(old(log), log)
      ensures old(Fired()) ==> tt.entries[..] == old(tt.entries[..]) && log == old(log)
      ensures !Fired() && !cut ==> InWindow(r, Negamax(b.View(), depth, ply), alpha0, beta)
      ensures !Fired() ==> Answers(keys, tt.age, Inner(b.View(), depth, ply, alpha0, beta), old(tt.entries[..]), r, tt.entries[..])
      decreases depth, 1
    {
      hide Inv, Legal, Terminal, Negamax, Hash, AllTrue, InWindow, Evaluation, QuietValue, InCheck;
      hide Answers, QuietAnswers, Listing, Searched, Kept, Complete, Replayed, Ordered, NoDuplicates, Hit, MoveIn, ScoreIn;
      hide Extends, Books, TableHonest;
      ExtendsNothing(log);
      ghost var p, n, es := b.View(), Inner(b.View(), depth, ply, alpha0, beta), tt.entries[..];
      var moves := GenerateLegalMoves(b);
      TerminalIffNoMoves(p, moves);
      if moves == [] {
        var checked := IsInCheck(b, b.side);
        TerminalNode(p, depth, ply, alpha0, beta);
        r := if checked then -(SCORE_MATE - ply) else SCORE_DRAW;
        LeafAnswers(keys, tt.age, n, es, r);
        return;
      }
      var order := Arrange(b, moves, ttMove);
      ghost var s;
      r, s := SearchMoves(b, order, depth, ply, alpha0, beta);
      if !Fired() {
        Expanded(keys, tt.age, n, es, order, s);
      }
    }

    /** The entry a node leaves behind once its moves are searched. */
    method SearchMoves(b: Board, moves: seq<Move>, depth: nat, ply: nat, alpha0: int, beta: int)
        returns (best: int, ghost s: Stand)
      requires tt.Valid() && Searchable(b) && Inv(b.View()) && b.Keyed() && b.halfmove < 100
      requires depth > 0 && (cut || Window(alpha0, beta, depth, ply))
      requires moves != [] && !Terminal(b.View()) && forall m: Move :: m in moves <==> Legal(b.View(), m)
      modifies this`nodes, this`ticks, this`cut, this`log, tt`origins, tt.entries, b, b.squares
      ensures tt.Valid() && b.View() == old(b.View()) && b.key == old(b.key)
      ensures ticks >= old(ticks) && (old(cut) ==> cut)
      ensures old(TableHonest()) ==> TableHonest()
      ensures old(Books()) ==> Books()
      ensures Extends(old(log), log)
      ensures old(Fired()) ==> tt.entries[..] == old(tt.entries[..]) && log == old(log)
      ensures !Fired() && !cut ==> InWindow(best, Negamax(b.View(), depth, ply), alpha0, beta)
      ensures !Fired() ==> best == s.best && |s.es| > 0
      ensures !Fired() ==> Searched(keys, tt.age, Inner(b.View(), depth, ply, alpha0, beta), old(tt.entries[..]), moves[0], moves, s)
      ensures !Fired() && |s.es| > 0 ==> tt.entries[..] == Kept(keys, tt.age, Inner(b.View(), depth, ply, alpha0, beta), s)
      decreases depth, 0
    {
      hide Inv, Legal, Terminal, Negamax, Hash, AllTrue, InWindow, Bounds, OriginValue, Searched, Kept, Replayed, Complete, Extends, Window, Books, TableHonest;
      ghost var p, n, es := b.View(), Inner(b.View(), depth, ply, alpha0, beta), tt.entries[..];
      if Books() {
        BooksReplay();
      }
      var bestMove, aborted;
      best, bestMove, aborted, s := MoveLoop(b, moves, depth, ply, alpha0, beta);
      if aborted {
        return;
      }
      var up := TimeUp();
      if !up {
        var node := if best >= beta then LowerBound else if best > alpha0 then Exact else UpperBound;
        if !cut {
          NodeIsBound(best, Negamax(p, depth, ply), alpha0, beta, node, Origin(p, depth, ply, false));
        }
        ghost var q, filed := Filed(n, |old(log)|, es, moves[0], moves, s, ticks), log;
        IsComplete(keys, tt.age, q);
        if old(Books()) {
          BooksReplay();
          PlacedSince(keys, tt.age, base, old(log), log, q);
        }
        StoreNode(b, depth, ply, best, node, bestMove, q);
        ExtendsBy(old(log), filed, q);
      }
    }

    /**
     Every store of the search: made only while no reading has found the time up, and only for
     a node whose moves have been searched.
     */
    method StoreNode(b: Board, depth: nat, ply: nat, score: int, node: NodeType, move: Move, ghost q: Filed)
      requires tt.Valid() && b.Valid() && b.keys == keys && b.Keyed() && b.squares as object != tt.entries
      requires !Fired() && q.reading == ticks && Complete(keys, tt.age, q)
      requires q.stand == Stand(tt.entries[..], q.stand.alpha, score, move)
      requires q.node.pos == b.View() && q.node.depth == depth && q.node.ply == ply
      requires node == if q.node.root then Exact else NodeTypeOf(score, q.node.alpha, q.node.beta)
      modifies this`log, tt`origins, tt.entries
      ensures tt.Valid() && log == old(log) + [q]
      ensures tt.entries[..] == Kept(keys, tt.age, q.node, q.stand)
      ensures old(Books()) && old(Placed(keys, tt.age, base, log, q)) ==> Books()
      ensures old(TableHonest()) && (!cut ==> Bounds(node, score, OriginValue(Origin(b.View(), depth, ply, q.node.root)))) ==> TableHonest()
    {
      hide Hash, AllTrue, Bounds, OriginValue, Complete, Replayed, Stored, NodeTypeOf, Placed, Orderly;
      ghost var books := Books() && Placed(keys, tt.age, base, log, q);
      if books {
        OneMoreStore(keys, tt.age, base, log, q);
        OrderlyBy(keys, tt.age, base, log, deadline, q);
      }
      tt.Store(b.key, depth, ply, score, node, move, keys, Origin(b.View(), depth, ply, q.node.root));
      log := log + [q];
    }

    /** The move loop of a node: the window narrows, a score at beta ends it. */
    method MoveLoop(b: Board, moves: seq<Move>, depth: nat, ply: nat, alpha0: int, beta: int)
        returns (best: int, bestMove: Move, aborted: bool, ghost s: Stand)
      requires tt.Valid() && Searchable(b) && Inv(b.View()) && b.Keyed() && b.halfmove < 100
      requires depth > 0 && (cut || Window(alpha0, beta, depth, ply))
      requires moves != [] && !Terminal(b.View()) && forall m: Move :: m in moves <==> Legal(b.View(), m)
      modifies this`nodes, this`ticks, this`cut, this`log, tt`origins, tt.entries, b, b.squares
      ensures tt.Valid() && b.View() == old(b.View()) && b.key == old(b.key)
      ensures ticks >= old(ticks) && (old(cut) ==> cut)
      ensures old(TableHonest()) ==> TableHonest()
      ensures old(Books()) ==> Books()
      ensures Extends(old(log), log)
      ensures old(Fired()) ==> tt.entries[..] == old(tt.entries[..]) && log == old(log)
      ensures aborted <==> Fired()
      ensures !Fired() && !cut ==> InWindow(best, Negamax(b.View(), depth, ply), alpha0, beta)
      ensures !Fired() ==> s == Stand(tt.entries[..], s.alpha, best, bestMove)
      ensures !Fired() ==> Searched(keys, tt.age, Inner(b.View(), depth, ply, alpha0, beta), old(tt.entries[..]), moves[0], moves, s)
      decreases depth - 1, 4
    {
      hide Inv, Legal, Terminal, Negamax, Hash, AllTrue, InWindow, Progress, Gain, Apply, Reaches, Searched, Answers, Complete, Replayed, Extends, Books, TableHonest;
      ghost var p, key, n, es := b.View(), b.key, Inner(b.View(), depth, ply, alpha0, beta), tt.entries[..];
      ghost var honest, books := TableHonest(), Books();
      var alpha := alpha0;
      best := -SCORE_INFINITY;
      bestMove := moves[0];
      aborted := false;
      s := Begin(n, es, moves[0]);
      NothingSearched(p, depth, ply, alpha0, beta);
      ReachesNothing(keys, tt.age, n, es, moves[0]);
      ExtendsNothing(log);
      assert moves[..0] == [];
      var i := 0;
      while i < |moves|
        invariant 0 <= i <= |moves| && (i > 0 ==> !Fired())
        invariant tt.Valid() && b.View() == p && b.key == key && ticks >= old(ticks) && (old(cut) ==> cut)
        invariant honest ==> TableHonest()
        invariant books ==> Books()
        invariant Extends(old(log), log)
        invariant old(Fired()) ==> tt.entries[..] == es && log == old(log)
        invariant cut || (Window(alpha0, beta, depth, ply) && Lower(moves[..i], alpha0, alpha, best, beta))
        invariant !Fired() && !cut ==> Progress(p, depth, ply, moves[..i], alpha0, best, beta)
        invariant !Fired() ==> s == Stand(tt.entries[..], alpha, best, bestMove) && Reaches(keys, tt.age, n, es, moves[0], moves[..i], s)
        invariant i > 0 ==> alpha < beta
      {
        var m := moves[i];
        assert m in moves && moves[..i + 1] == moves[..i] + [m];
        ghost var filed := log;
        var score := TryMove(b, m, depth, ply, alpha, beta);
        ExtendsOn(old(log), filed, log);
        aborted := TimeUp();
        if aborted {
          return;
        }
        if !cut {
          Advance(p, depth, ply, moves[..i], m, score, alpha0, alpha, best, beta);
        }
        ReachesStep(keys, tt.age, n, es, moves[0], moves[..i], s, m, score, tt.entries[..]);
        s := Tried(s, m, score, tt.entries[..]);
        if score > best {
          best := score;
          bestMove := m;
        }
        if score > alpha {
          alpha := score;
        }
        i := i + 1;
        if alpha >= beta {
          break;
        }
      }
      SearchedTo(keys, tt.age, n, es, moves[0], moves, i, s);
      if !cut {
        assert best < beta ==> moves[..i] == moves;
        AllOrCut(p, moves, i, best, beta);
        Finished(p, depth, ply, moves[..i], alpha0, best, beta);
      }
    }

    // ---- iterative deepening

    /** One depth: every root move in turn, until the time is up. */
    method SearchRoot(moves: seq<Move>, first: Move, depth: nat) returns (best: int, bestMove: Move, ghost s: Stand)
      requires Ready() && Inv(board.View()) && board.Keyed() && 0 < depth < PLY_LIMIT
      requires first in moves && forall m: Move :: m in moves <==> Legal(board.View(), m)
      modifies this`nodes, this`ticks, this`cut, this`log, tt`origins, tt.entries, board, board.squares
      ensures Ready() && board.View() == old(board.View()) && board.key == old(board.key)
      ensures ticks >= old(ticks) && (old(cut) ==> cut)
      ensures old(TableHonest()) ==> TableHonest()
      ensures old(Books()) ==> Books()
      ensures Extends(old(log), log)
      ensures old(Fired()) ==> tt.entries[..] == old(tt.entries[..]) && log == old(log)
      ensures bestMove in moves
      ensures !Fired() && !cut ==> best == RootValue(board.View(), depth) && Gain(board.View(), bestMove, depth, 0) == best
      ensures !Fired() ==> s == Stand(tt.entries[..], s.alpha, best, bestMove)
      ensures !Fired() ==> Searched(keys, tt.age, RootNode(board.View(), depth), old(tt.entries[..]), first, moves, s)
    {
      hide Inv, Legal, Hash, AllTrue, InWindow, Gain, RootProgress, RootValue, Window, Apply, Reaches, Searched, Answers, Complete, Replayed, Extends, Books, TableHonest;
      ghost var p, key, n, es := board.View(), board.key, RootNode(board.View(), depth), tt.entries[..];
      ghost var honest, books := TableHonest(), Books();
      best := -SCORE_INFINITY;
      bestMove := first;
      var alpha := -SCORE_INFINITY;
      s := Begin(n, es, first);
      RootNothing(p, depth, bestMove);
      ReachesNothing(keys, tt.age, n, es, first);
      ExtendsNothing(log);
      NoneYet(moves);
      for i := 0 to |moves|
        invariant Ready() && board.View() == p && board.key == key && ticks >= old(ticks) && (old(cut) ==> cut)
        invariant honest ==> TableHonest()
        invariant books ==> Books()
        invariant Extends(old(log), log)
        invariant old(Fired()) ==> tt.entries[..] == es && log == old(log)
        invariant bestMove in moves
        invariant alpha == best >= -SCORE_INFINITY
        invariant !Fired() && !cut ==> RootProgress(p, depth, moves[..i], best, bestMove)
        invariant !Fired() ==> s == Stand(tt.entries[..], alpha, best, bestMove) && Reaches(keys, tt.age, n, es, first, moves[..i], s)
      {
        var m := moves[i];
        OneMore(moves, i);
        var up := TimeUp();
        if up {
          break;
        }
        if !cut {
          RootWindowOpen(p, depth, moves[..i], best, bestMove);
        }
        ghost var filed := log;
        var score := TryMove(board, m, depth, 0, alpha, SCORE_INFINITY);
        ExtendsOn(old(log), filed, log);
        if !Fired() && !cut {
          RootAdvance(p, depth, moves[..i], m, score, best, bestMove);
        }
        if !Fired() {
          ReachesStep(keys, tt.age, n, es, first, moves[..i], s, m, score, tt.entries[..]);
        }
        s := Tried(s, m, score, tt.entries[..]);
        if score > best {
          best := score;
          bestMove := m;
        }
        if score > alpha {
          alpha := score;
        }
      }
      if !Fired() {
        SearchedTo(keys, tt.age, n, es, first, moves, |moves|, s);
        if !cut {
          RootFinished(p, depth, moves, best, bestMove);
        }
      }
    }

    /**
     One iteration of deepening: the root moves are ordered and searched, and the outcome is
     adopted and stored only if the time is not up when the search comes back.
     */
    method Deepen(moves: seq<Move>, depth: nat, last: SearchResult, ghost wasExact: bool)
      returns (order: seq<Move>, r: SearchResult, ghost exact: bool)
      requires Ready() && Inv(board.View()) && board.Keyed() && TableHonest() && Books() && 0 < depth < PLY_LIMIT
      requires moves != [] && NoDuplicates(moves) && forall m: Move :: m in moves <==> Legal(board.View(), m)
      requires Legal(board.View(), last.best)
      requires (!cut ==> wasExact) && (wasExact ==> ResultExact(board.View(), last))
      modifies this`nodes, this`ticks, this`cut, this`log, tt`origins, tt.entries, board, board.squares
      ensures Ready() && TableHonest() && Books() && board.View() == old(board.View()) && board.key == old(board.key)
      ensures order != [] && NoDuplicates(order) && forall m: Move :: m in order <==> Legal(board.View(), m)
      ensures Legal(board.View(), r.best)
      ensures ticks >= old(ticks)
      ensures Fired() ==> r == last && Extends(old(log), log)
      ensures !Fired() ==> r.depth == depth
      ensures !Fired() ==> Iterates(keys, tt.age, board.View(), depth,
                                    Stage(moves, last, old(tt.entries[..])), Stage(order, r, tt.entries[..]))
      ensures !Fired() ==> log != [] && Extends(old(log), log[..|log| - 1]) && ReportsRoot(log[|log| - 1], r)
      ensures (!cut ==> exact) && (exact ==> ResultExact(board.View(), r))
    {
      hide Inv, Legal, Hash, AllTrue, RootValue, Gain, Searched, Replayed, Kept, Listing, Ordered, NoDuplicates, MoveIn;
      hide Complete, Extends, Bounds, OriginValue, Books, TableHonest, Iterates, ReportsRoot, ResultExact;
      ghost var p, a := board.View(), Stage(moves, last, tt.entries[..]);
      BooksReplay();
      r, exact := last, wasExact;
      var rootMove := tt.ProbeMove(board.key, r.best);
      order := Arrange(board, moves, rootMove);
      assert moves[0] in moves;
      var best, bestMove, s := SearchRoot(order, moves[0], depth);
      var up := TimeUp();
      if up {
        return;
      }
      r := r.(best := bestMove, score := best, depth := depth);
      exact := !cut;
      if !cut {
        RootIsBound(p, depth, best);
        AdoptedIsExact(p, r);
      }
      ghost var q := Filed(RootNode(p, depth), |old(log)|, a.es, moves[0], order, s, ticks);
      StoreRoot(depth, best, bestMove, q, old(log));
      ReportsThis(q, p, depth, r);
      Iterated(keys, tt.age, p, depth, a, Stage(order, r, tt.entries[..]), s);
    }

    /** The root's entry, filed. */
    method StoreRoot(depth: nat, best: int, bestMove: Move, ghost q: Filed, ghost was: seq<Filed>)
      requires Ready() && board.Keyed() && !Fired() && Books() && TableHonest()
      requires q.node == RootNode(board.View(), depth) && q.reading == ticks
      requires q.stand == Stand(tt.entries[..], q.stand.alpha, best, bestMove)
      requires forall m: Move :: m in q.order <==> Legal(board.View(), m)
      requires Searched(keys, tt.age, q.node, q.before, q.first, q.order, q.stand)
      requires Extends(was, log) && q.since == |was| && q.before == Replayed(keys, tt.age, base, was)
      requires !cut ==> Bounds(Exact, best, OriginValue(Origin(board.View(), depth, 0, true)))
      modifies this`log, tt`origins, tt.entries
      ensures tt.Valid() && log == old(log) + [q] && log[..|log| - 1] == old(log)
      ensures tt.entries[..] == Kept(keys, tt.age, q.node, q.stand)
      ensures Books() && TableHonest()
    {
      hide Legal, Hash, Bounds, OriginValue, Searched, Replayed, Kept, Complete, Extends, Books, TableHonest;
      IsComplete(keys, tt.age, q);
      BooksReplay();
      PlacedSince(keys, tt.age, base, was, log, q);
      StoreNode(board, depth, 0, best, Exact, bestMove, q);
    }

    /**
     Depth 1, 2, 3, ... until the time is up, the depth limit is reached or a forced mate is
     seen.  `exact` says that no table probe had ended a node early when the reported depth
     was completed.
     */
    method Run(limit: Option<nat>, maxDepth: int) returns (r: SearchResult, ghost exact: bool)
      requires Ready() && Inv(board.View()) && board.Keyed() && TableHonest() && maxDepth < PLY_LIMIT
      modifies this`nodes, this`ticks, this`deadline, this`cut, this`base, this`log, tt, tt.entries, board, board.squares
      ensures Ready() && TableHonest()
      ensures board.View() == old(board.View()) && board.key == old(board.key)
      ensures Terminal(board.View()) ==> r.best == NO_MOVE && r.depth == 0
      ensures !Terminal(board.View()) ==> Legal(board.View(), r.best)
      ensures 0 <= r.depth && (r.depth > 0 ==> r.depth <= maxDepth)
      ensures !Terminal(board.View()) && !Fired() ==> r.depth == maxDepth || maxDepth <= 0 || AbsScore(r.score) >= SCORE_MATE - 100
      ensures !cut ==> exact
      ensures exact ==> ResultExact(board.View(), r)
      ensures deadline == limit && base == old(tt.entries[..]) && Books()
      ensures !Terminal(board.View()) ==> exists b: Stage ::
        && Deepened(keys, tt.age, board.View(), old(tt.entries[..]), r.depth, b) && r == b.result.(nodes := nodes)
        && (!Fired() ==> b.es == tt.entries[..])
      ensures Reports(log, r)
    {
      hide Inv, Legal, Terminal, Hash, AllTrue, RootValue, Gain, Deepened, Iterates, Complete, Replayed, NoDuplicates;
      hide Reports, ReportsRoot, Books, TableHonest;
      Start(limit);
      ghost var p, key := board.View(), board.key;
      r := SearchResult(NO_MOVE, 0, 0, 0);
      NothingToReport(r);
      exact := true;
      var rootMoves := GenerateLegalMoves(board);
      TerminalIffNoMoves(p, rootMoves);
      if rootMoves == [] {
        return;
      }
      assert rootMoves[0] in rootMoves;
      r := r.(best := rootMoves[0]);
      ghost var stage;
      r, exact, stage := Iterate(rootMoves, r, maxDepth);
      ReportsAnyCount(log, r, nodes);
      r := r.(nodes := nodes);
    }

    /** A new search: counters at zero, the deadline set, the table a generation older, the books opened. */
    method Start(limit: Option<nat>)
      requires tt.Valid()
      modifies this`nodes, this`ticks, this`deadline, this`base, this`log, tt`age
      ensures nodes == 0 && ticks == 0 && deadline == limit && tt.age == (old(tt.age) + 1) % 256
      ensures base == tt.entries[..] && log == []
      ensures Books() && !Fired()
    {
      hide Complete;
      ticks := 0;
      deadline := limit;
      nodes := 0;
      tt.NewSearch();
      base, log := tt.entries[..], [];
      NothingStored(keys, tt.age, base);
    }

    /** The loop over the depths. */
    method Iterate(moves: seq<Move>, start: SearchResult, maxDepth: int) returns (r: SearchResult, ghost exact: bool, ghost stage: Stage)
      requires Ready() && Inv(board.View()) && board.Keyed() && TableHonest() && Books() && maxDepth < PLY_LIMIT
      requires !Fired() && log == [] && base == tt.entries[..]
      requires Opening(board.View(), base, Stage(moves, start, base))
      modifies this`nodes, this`ticks, this`cut, this`log, tt`origins, tt.entries, board, board.squares
      ensures Ready() && TableHonest() && Books()
      ensures board.View() == old(board.View()) && board.key == old(board.key)
      ensures Legal(board.View(), r.best)
      ensures 0 <= r.depth && (r.depth > 0 ==> r.depth <= maxDepth)
      ensures !Fired() ==> r.depth == maxDepth || maxDepth <= 0 || Forced(r)
      ensures (!cut ==> exact) && (exact ==> ResultExact(board.View(), r))
      ensures stage.result == r && Deepened(keys, tt.age, board.View(), base, r.depth, stage)
      ensures !Fired() ==> stage.es == tt.entries[..]
      ensures Reports(log, r)
    {
      hide Inv, Legal, Terminal, Hash, AllTrue, RootValue, Gain, Deepened, Iterates, Complete, Replayed, NoDuplicates, Forced;
      hide Opening, Extends, ReportsRoot, Reports, Books, TableHonest;
      ghost var p, key := board.View(), board.key;
      var rootMoves := moves;
      r, exact, stage := start, true, Stage(moves, start, base);
      OpeningMoves(p, base, stage);
      Opened(keys, tt.age, p, base, stage);
      NothingToReport(start);
      var depth := 1;
      var stopped := false;
      while depth <= maxDepth && !stopped
        invariant 1 <= depth && (depth <= maxDepth + 1 || depth == 1)
        invariant Ready() && TableHonest() && Books() && board.View() == p && board.key == key
        invariant rootMoves != [] && NoDuplicates(rootMoves) && forall m: Move :: m in rootMoves <==> Legal(p, m)
        invariant Legal(p, r.best)
        invariant 0 <= r.depth < depth || (stopped && r.depth == depth)
        invariant r.depth > 0 ==> r.depth <= maxDepth
        invariant !Fired() ==> (!stopped && r.depth == depth - 1) || (stopped && Forced(r))
        invariant (!cut ==> exact) && (exact ==> ResultExact(p, r))
        invariant stage.result == r && Deepened(keys, tt.age, p, base, r.depth, stage)
        invariant !Fired() ==> stage == Stage(rootMoves, r, tt.entries[..])
        invariant !stopped ==> !Forced(r)
        invariant Reports(log, r)
        decreases maxDepth - depth, !stopped
      {
        var up := TimeUp();
        if up {
          break;
        }
        ghost var a, filed := stage, log;
        rootMoves, r, exact := Deepen(rootMoves, depth, r, exact);
        if Fired() {
          ReportStays(filed, log, r);
        } else {
          ReportGrows(filed, log, a.result, r);
          stage := Stage(rootMoves, r, tt.entries[..]);
          OneDeeper(keys, tt.age, p, base, depth, a, stage);
        }
        if Forced(r) {
          stopped := true;
        } else {
          depth := depth + 1;
        }
      }
    }
  }

  /** Nothing is lost from a log, and what is new are inner nodes. */
  ghost predicate Extends(a: seq<Filed>, b: seq<Filed>) {
    a <= b && forall k :: |a| <= k < |b| ==> !b[k].node.root
  }

  /** The store of a root whose outcome is what is reported. */
  ghost predicate ReportsRoot(q: Filed, r: SearchResult) {
    q.node.root && q.node.depth == r.depth && q.stand.best == r.score && q.stand.move == r.best
  }

  /** The deepest root that was stored is the one reported. */
  ghost predicate Reports(log: seq<Filed>, r: SearchResult) {
    && (forall k :: 0 <= k < |log| && log[k].node.root ==> log[k].node.depth <= r.depth)
    && (r.depth > 0 ==> exists k :: 0 <= k < |log| && ReportsRoot(log[k], r))
  }

  lemma ExtendsBy(a: seq<Filed>, b: seq<Filed>, q: Filed)
    requires Extends(a, b) && !q.node.root
    ensures Extends(a, b + [q])
  {
  }

  lemma ExtendsNothing(a: seq<Filed>)
    ensures Extends(a, a)
  {
  }

  lemma ExtendsOn(a: seq<Filed>, b: seq<Filed>, c: seq<Filed>)
    requires Extends(a, b) && Extends(b, c)
    ensures Extends(a, c)
  {
    assert a == b[..|a|] == c[..|a|];
  }

  lemma ReportStays(a: seq<Filed>, b: seq<Filed>, r: SearchResult)
    requires Reports(a, r) && Extends(a, b)
    ensures Reports(b, r)
  {
    hide ReportsRoot;
    assert forall k :: 0 <= k < |a| ==> a[k] == b[k];
    assert forall k :: 0 <= k < |b| && b[k].node.root ==> k < |a|;
  }

  lemma ReportGrows(a: seq<Filed>, b: seq<Filed>, last: SearchResult, r: SearchResult)
    requires Reports(a, last) && b != [] && Extends(a, b[..|b| - 1]) && ReportsRoot(b[|b| - 1], r) && r.depth > last.depth >= 0
    ensures Reports(b, r)
  {
    ReportStays(a, b[..|b| - 1], last);
    assert forall k :: 0 <= k < |b| - 1 ==> b[k] == b[..|b| - 1][k];
  }

  lemma ReportsAnyCount(log: seq<Filed>, r: SearchResult, nodes: int)
    requires Reports(log, r)
    ensures Reports(log, r.(nodes := nodes))
  {
    if r.depth > 0 {
      var k :| 0 <= k < |log| && ReportsRoot(log[k], r);
      assert ReportsRoot(log[k], r.(nodes := nodes));
    }
  }

  lemma ReportsThis(q: Filed, p: Position, depth: nat, r: SearchResult)
    requires q.node == RootNode(p, depth) && r.depth == depth && q.stand.best == r.score && q.stand.move == r.best
    ensures ReportsRoot(q, r)
  {
  }

  lemma NothingToReport(r: SearchResult)
    requires r.depth == 0
    ensures Reports([], r)
  {
  }

  lemma PlacedSince(ks: Keys, age: int, base: seq<Entry>, a: seq<Filed>, b: seq<Filed>, q: Filed)
    requires Extends(a, b) && q.since == |a| && q.before == Replayed(ks, age, base, a) && q.stand.es == Replayed(ks, age, base, b)
    ensures Placed(ks, age, base, b, q)
  {
    hide Replayed;
    assert b[..q.since] == a;
  }

  lemma IsComplete(ks: Keys, age: int, q: Filed)
    requires forall m: Move :: m in q.order <==> Legal(q.node.pos, m)
    requires Searched(ks, age, q.node, q.before, q.first, q.order, q.stand)
    ensures Complete(ks, age, q)
  {
    hide Legal, Searched;
  }

  // ---------------------------------------------------------------- steps of the clockless search

  lemma Listed(p: Position, ms: seq<Move>, order: seq<Move>, tt: Move)
    requires NoDuplicates(ms) && forall m: Move :: m in ms <==> Legal(p, m)
    requires multiset(order) == multiset(ms) && Ordered(p.squares, order, tt)
    ensures Listing(p, order, tt) && NoDuplicates(order) && |order| == |ms|
    ensures forall m: Move :: m in order <==> Legal(p, m)
  {
    hide Legal, Ordered;
    SameMembers(order, ms);
    forall i, j | 0 <= i < j < |order|
      ensures order[i] != order[j]
    {
      AtMostOnce(ms, order[i]);
      assert order == order[..j] + [order[j]] + order[j + 1..];
      assert order[i] in order[..j];
    }
  }

  lemma {:induction false} AtMostOnce(ms: seq<Move>, m: Move)
    requires NoDuplicates(ms)
    ensures multiset(ms)[m] <= 1
  {
    if ms != [] {
      assert ms == [ms[0]] + ms[1..];
      AtMostOnce(ms[1..], m);
      assert ms[0] !in ms[1..];
    }
  }

  lemma QuietLeafAnswers(p: Position, ply: int, alpha0: int, beta: int)
    requires Terminal(p) || p.halfmove >= 100 || ply >= MAX_PLY
    ensures QuietAnswers(p, ply, alpha0, beta,
      if Terminal(p) then TerminalScore(p, ply) else if p.halfmove >= 100 then SCORE_DRAW else Evaluation(p))
  {
    hide Terminal, Evaluation, InCheck;
  }

  lemma StandPatAnswers(p: Position, ply: int, alpha0: int, beta: int)
    requires !Terminal(p) && p.halfmove < 100 && ply < MAX_PLY && !InCheck(p.squares, p.side) && Evaluation(p) >= beta
    ensures QuietAnswers(p, ply, alpha0, beta, Evaluation(p))
  {
    hide Terminal, Evaluation, InCheck;
  }

  lemma QuietExpanded(p: Position, ply: int, alpha0: int, alpha: int, beta: int, ms: seq<Move>, r: int)
    requires !Terminal(p) && p.halfmove < 100 && ply < MAX_PLY && Listing(p, ms, NO_MOVE)
    requires if InCheck(p.squares, p.side) then alpha == alpha0 else alpha == Higher(alpha0, Evaluation(p)) && Evaluation(p) < beta
    requires QuietSearched(p, ply, alpha, beta, ms, r)
    ensures QuietAnswers(p, ply, alpha0, beta, r)
  {
    hide Terminal, Evaluation, InCheck, Listing, QuietSearched;
  }

  lemma QuietReachesNothing(p: Position, ply: int, alpha1: int, beta: int)
    requires ply < MAX_PLY
    ensures QuietReaches(p, ply, alpha1, beta, [], alpha1)
  {
  }

  lemma QuietCut(p: Position, ply: int, alpha1: int, beta: int, ms: seq<Move>, k: nat, alpha: int, score: int)
    requires ply < MAX_PLY && k < |ms| && QuietReaches(p, ply, alpha1, beta, ms[..k], alpha)
    requires ms[k] in QuietMoves(p) && score >= beta && QuietAnswers(Apply(p, ms[k]), ply + 1, -beta, -alpha, -score)
    ensures QuietSearched(p, ply, alpha1, beta, ms, score)
  {
    hide QuietReaches, QuietMoves, QuietAnswers, Apply;
    assert QuietCuts(p, ply, alpha1, beta, ms[..k], ms[k], score);
  }

  lemma QuietEnd(p: Position, ply: int, alpha1: int, beta: int, ms: seq<Move>, alpha: int)
    requires ply < MAX_PLY && QuietReaches(p, ply, alpha1, beta, ms, alpha)
    ensures QuietSearched(p, ply, alpha1, beta, ms, alpha)
  {
    hide QuietReaches, QuietCuts;
  }

  lemma ReachesNothing(ks: Keys, age: int, n: Node, es: seq<Entry>, first: Move)
    ensures Reaches(ks, age, n, es, first, [], Begin(n, es, first))
  {
  }

  /** A node that is answered without looking at its moves. */
  lemma LeafAnswers(ks: Keys, age: int, n: Node, es: seq<Entry>, r: int)
    requires |es| > 0
    requires var hit := n.ply > 0 && Hit(es, Hash(ks, n.pos), n.depth, n.ply, n.alpha, n.beta);
      if n.pos.halfmove >= 100 then r == SCORE_DRAW
      else if hit then r == ScoreIn(es, Hash(ks, n.pos), n.ply)
      else if n.depth == 0 then QuietAnswers(n.pos, n.ply, n.alpha, n.beta, r)
      else Terminal(n.pos) && r == TerminalScore(n.pos, n.ply)
    ensures Answers(ks, age, n, es, r, es)
  {
    hide Hit, Hash, ScoreIn, QuietAnswers, Terminal, TerminalScore;
  }

  lemma NothingStored(ks: Keys, age: int, base: seq<Entry>)
    ensures Replayed(ks, age, base, []) == base
  {
  }

  lemma Opened(ks: Keys, age: int, p: Position, es: seq<Entry>, a: Stage)
    requires Opening(p, es, a)
    ensures Deepened(ks, age, p, es, 0, a) && !Forced(a.result)
  {
  }

  lemma OpeningMoves(p: Position, es: seq<Entry>, a: Stage)
    requires Opening(p, es, a)
    ensures a.order != [] && NoDuplicates(a.order) && (forall m: Move :: m in a.order <==> Legal(p, m))
    ensures a == Stage(a.order, a.result, es) && a.result.depth == 0 && Legal(p, a.result.best)
  {
    hide Legal, NoDuplicates;
    assert a.order[0] in a.order;
  }

  lemma Iterated(ks: Keys, age: int, p: Position, depth: nat, a: Stage, b: Stage, s: Stand)
    requires a.order != [] && |a.es| > 0 && |s.es| > 0
    requires Listing(p, b.order, MoveIn(a.es, Hash(ks, p), a.result.best))
    requires Searched(ks, age, RootNode(p, depth), a.es, a.order[0], b.order, s)
    requires b.result == a.result.(best := s.move, score := s.best, depth := depth)
    requires b.es == Kept(ks, age, RootNode(p, depth), s)
    ensures Iterates(ks, age, p, depth, a, b)
  {
    hide Listing, Searched, Kept, MoveIn, Hash;
  }

  lemma OneDeeper(ks: Keys, age: int, p: Position, es: seq<Entry>, depth: nat, a: Stage, b: Stage)
    requires depth > 0 && Deepened(ks, age, p, es, depth - 1, a) && !Forced(a.result) && Iterates(ks, age, p, depth, a, b)
    ensures Deepened(ks, age, p, es, depth, b)
  {
    hide Iterates, Forced;
  }

  lemma NoneYet(ms: seq<Move>)
    ensures ms[..0] == [] && ms[..|ms|] == ms
  {
  }

  lemma OneMore(ms: seq<Move>, i: nat)
    requires i < |ms|
    ensures ms[i] in ms && ms[..i + 1] == ms[..i] + [ms[i]]
  {
  }

  lemma RootWindowOpen(p: Position, depth: nat, done: seq<Move>, best: int, move: Move)
    requires depth > 0 && RootProgress(p, depth, done, best, move) && best >= -SCORE_INFINITY
    ensures best < SCORE_INFINITY && Window(best, SCORE_INFINITY, depth, 0)
  {
  }

  lemma AdoptedIsExact(p: Position, r: SearchResult)
    requires r.depth > 0 && r.score == RootValue(p, r.depth) && Legal(p, r.best) && Gain(p, r.best, r.depth, 0) == r.score
    ensures ResultExact(p, r)
  {
  }

  lemma RootIsBound(p: Position, depth: nat, best: int)
    requires depth > 0 && best == RootValue(p, depth)
    ensures Bounds(Exact, best, OriginValue(Origin(p, depth, 0, true)))
  {
  }

  lemma AllOrCut(p: Position, moves: seq<Move>, i: nat, best: int, beta: int)
    requires i <= |moves| && (best < beta ==> moves[..i] == moves)
    requires forall m: Move :: m in moves <==> Legal(p, m)
    ensures best < beta ==> forall m: Move :: Legal(p, m) ==> m in moves[..i]
  {
  }

  lemma NothingSearched(p: Position, depth: nat, ply: int, alpha0: int, beta: int)
    requires depth > 0
    ensures Progress(p, depth, ply, [], alpha0, -SCORE_INFINITY, beta)
  {
  }

  lemma FiftyMoveNode(p: Position, depth: nat, ply: int, alpha: int, beta: int)
    requires p.halfmove >= 100
    ensures InWindow(SCORE_DRAW, Negamax(p, depth, ply), alpha, beta)
  {
  }

  lemma LeafNode(p: Position, ply: int)
    requires p.halfmove < 100
    ensures Negamax(p, 0, ply) == QuietValue(p, ply)
  {
  }

  lemma TerminalNode(p: Position, depth: nat, ply: int, alpha: int, beta: int)
    requires p.halfmove < 100 && depth > 0 && Terminal(p)
    ensures InWindow(if InCheck(p.squares, p.side) then -(SCORE_MATE - ply) else SCORE_DRAW, Negamax(p, depth, ply), alpha, beta)
  {
    hide InCheck, Legal;
  }

  /** The type stored with a score follows from the window it was searched with. */
  lemma NodeIsBound(r: int, v: int, alpha: int, beta: int, node: NodeType, o: Origin)
    requires InWindow(r, v, alpha, beta) && !o.root && v == Negamax(o.pos, o.depth, o.ply)
    requires node == if r >= beta then LowerBound else if r > alpha then Exact else UpperBound
    ensures Bounds(node, r, OriginValue(o))
  {
    hide Negamax;
  }

  lemma TerminalIffNoMoves(p: Position, ms: seq<Move>)
    requires forall m: Move :: m in ms <==> Legal(p, m)
    ensures Terminal(p) <==> ms == []
  {
    hide Legal;
    if ms != [] {
      assert ms[0] in ms;
    }
  }

  lemma EnPassantTakesBack(p: Position, m: Move)
    requires Playable(p, m)
    ensures Apply(p, m).side == Opposite(p.side) && Opposite(Opposite(p.side)) == p.side
    ensures m.flags.enPassant ==> OnBoard(Rank(m.to) - Forward(p.side), File(m.to))
  {
  }
}
