/** What the search values mean: which moves quiescence follows, and what a mate is worth. */
module SearchLaws {
  import opened Types
  import opened Rules
  import opened Invariant
  import opened MoveSets
  import opened MoveGen
  import opened Evaluator
  import opened Minimax
  import opened TranspositionTable
  import opened MoveLaws
  import opened RootScore
  import opened Zobrist

  // ---------------------------------------------------------------- quiescence

  /** Out of check quiescence follows exactly the legal moves that change the men on the board. */
  lemma QuietMovesChangeMen(p: Position, m: Move)
    requires Inv(p) && !InCheck(p.squares, p.side) && Legal(p, m)
    ensures m in QuietMoves(p) <==> Men(Apply(p, m)) != Men(p)
  {
    hide Inv, InCheck, Legal, Men, Apply;
    MenChangeIff(p, m);
  }

  /**
   So no capture and no promotion is overlooked: quiescence is worth at least what any of them
   leads to.  In check the same holds of every move.
   */
  lemma QuietSeesChanges(p: Position, m: Move, ply: int)
    requires Inv(p) && Legal(p, m) && p.halfmove < 100 && ply < MAX_PLY
    requires InCheck(p.squares, p.side) || Men(Apply(p, m)) != Men(p)
    ensures QuietValue(p, ply) >= -QuietValue(Apply(p, m), ply + 1)
  {
    hide Inv, InCheck, Legal, Men, Apply, QuietValue;
    if !InCheck(p.squares, p.side) {
      QuietMovesChangeMen(p, m);
    }
    NotTerminal(p, m);
    QuietUnfolds(p, ply);
  }

  lemma NotTerminal(p: Position, m: Move)
    requires Legal(p, m)
    ensures !Terminal(p)
  {
    hide Legal;
  }

  // ---------------------------------------------------------------- mates

  /** As long as no search goes this deep, mates outweigh every evaluation. */
  const DEEP := SCORE_MATE - EVAL_BOUND

  /** A score that neither beats the quickest mate nor loses to one. */
  predicate BelowMate(v: int, ply: int) {
    -(SCORE_MATE - ply) < v <= SCORE_MATE - ply - 1
  }

  lemma MateOrLeaf(p: Position, ply: int)
    requires Inv(p) && 0 <= ply < DEEP && (Terminal(p) || p.halfmove >= 100 || ply >= MAX_PLY)
    ensures if Terminal(p) && InCheck(p.squares, p.side) then QuietValue(p, ply) == -(SCORE_MATE - ply)
      else BelowMate(QuietValue(p, ply), ply)
  {
    hide Inv, Terminal, InCheck, Evaluation;
    KingsOf(p);
    EvaluationBound(p);
    QuietLeaf(p, ply);
  }

  /** Quiescence gives the losing mate score exactly to a mated side, and never a better one than mate at the next move. */
  lemma {:induction false} QuietMateScore(p: Position, ply: int)
    requires Inv(p) && 0 <= ply < DEEP
    ensures if Terminal(p) && InCheck(p.squares, p.side) then QuietValue(p, ply) == -(SCORE_MATE - ply)
      else BelowMate(QuietValue(p, ply), ply)
    decreases if ply < MAX_PLY then MAX_PLY - ply else 0
  {
    hide Inv, Terminal, InCheck, Evaluation, QuietValue, Legal, Apply;
    if Terminal(p) || p.halfmove >= 100 || ply >= MAX_PLY {
      MateOrLeaf(p, ply);
    } else {
      KingsOf(p);
      EvaluationBound(p);
      QuietUnfolds(p, ply);
      if m: Move :| m in QuietMoves(p) && -QuietValue(Apply(p, m), ply + 1) == QuietValue(p, ply) {
        LegalMoveKeepsInvariant(p, m);
        PlyIsShallow();
        QuietMateScore(Apply(p, m), ply + 1);
      }
    }
  }

  lemma PlyIsShallow()
    ensures MAX_PLY < DEEP
  {
  }

  /** The same of the full-width value, where the fifty-move count comes first: mate is what the status says. */
  lemma {:induction false} MateScore(p: Position, depth: nat, ply: int)
    requires Inv(p) && 0 <= ply && ply + depth < DEEP
    ensures if StatusOf(p) == Checkmate then Negamax(p, depth, ply) == -(SCORE_MATE - ply)
      else BelowMate(Negamax(p, depth, ply), ply)
    decreases depth
  {
    hide Inv, InCheck, Evaluation, QuietValue, Negamax, Legal, Apply, StatusOf, Terminal;
    StatusIs(p);
    if p.halfmove >= 100 || (depth > 0 && Terminal(p)) {
      NegamaxLeaf(p, depth, ply);
    } else if depth == 0 {
      NegamaxAtLeaf(p, ply);
      QuietMateScore(p, ply);
    } else {
      NegamaxUnfolds(p, depth, ply);
      var m: Move :| Legal(p, m) && -Negamax(Apply(p, m), depth - 1, ply + 1) == Negamax(p, depth, ply);
      LegalMoveKeepsInvariant(p, m);
      MateScore(Apply(p, m), depth - 1, ply + 1);
    }
  }

  lemma StatusIs(p: Position)
    ensures StatusOf(p) == Checkmate <==> p.halfmove < 100 && Terminal(p) && InCheck(p.squares, p.side)
  {
    hide Legal, InCheck;
  }

  lemma NegamaxLeaf(p: Position, depth: nat, ply: int)
    requires p.halfmove >= 100 || (depth > 0 && Terminal(p))
    ensures Negamax(p, depth, ply) == if p.halfmove >= 100 then SCORE_DRAW else TerminalScore(p, ply)
  {
    hide Terminal, TerminalScore;
  }

  /** The root is worth mate in one exactly when some legal move mates, and never more. */
  lemma MateInOneIff(p: Position, depth: nat)
    requires Inv(p) && !Terminal(p) && 0 < depth < DEEP
    ensures RootValue(p, depth) <= SCORE_MATE - 1
    ensures RootValue(p, depth) == SCORE_MATE - 1 <==> exists m: Move :: Legal(p, m) && StatusOf(Apply(p, m)) == Checkmate
  {
    hide Inv, Negamax, Legal, Apply, StatusOf, Terminal, RootValue;
    var best := RootAttained(p, depth);
    LegalMoveKeepsInvariant(p, best);
    MateScore(Apply(p, best), depth - 1, 1);
    if m: Move :| Legal(p, m) && StatusOf(Apply(p, m)) == Checkmate {
      LegalMoveKeepsInvariant(p, m);
      MateScore(Apply(p, m), depth - 1, 1);
      RootAtLeast(p, depth, m);
    }
  }

  /**
   A mate `n` plies below a node keeps its meaning in the table: stored at one distance from the
   root and met at another, it is the mate `n` plies below where it is met.
   */
  lemma MateScoreTransposes(n: nat, stored: nat, met: nat)
    requires stored + n <= DEEP
    ensures ScoreFromTable(ScoreToTable(SCORE_MATE - (stored + n), stored), met) == SCORE_MATE - (met + n)
    ensures ScoreFromTable(ScoreToTable(-(SCORE_MATE - (stored + n)), stored), met) == -(SCORE_MATE - (met + n))
  {
  }

  // ---------------------------------------------------------------- a table hit

  /**
   An entry that tells the truth about a node, met again at the same depth and distance, ends the
   search only with a sound answer for the window.
   */
  lemma HitAnswers(ks: Keys, es: seq<Entry>, o: Origin, alpha: int, beta: int)
    requires |es| > 0 && !o.root && o.depth <= 127 && alpha < beta
    requires EntryTrue(ks, es[Slot(Hash(ks, o.pos), |es|)], o)
    requires es[Slot(Hash(ks, o.pos), |es|)].node != NoNode
    requires Hit(es, Hash(ks, o.pos), o.depth, o.ply, alpha, beta)
    ensures InWindow(ScoreIn(es, Hash(ks, o.pos), o.ply), Negamax(o.pos, o.depth, o.ply), alpha, beta)
  {
    hide Negamax, Hash, Slot, ScoreFromTable;
  }

  // ---------------------------------------------------------------- what stays in the table

  /**
   Two positions of one search that share a slot: after both are stored, the first is still
   found exactly if it was searched deeper than the second, and then the second is not.
   */
  lemma DeeperStays(es: seq<Entry>, age: int, key: bv64, depth: nat, key': bv64, depth': nat,
                    ply: nat, score: int, node: NodeType, move: Move, ply': nat, score': int, node': NodeType, move': Move)
    requires |es| > 0 && Slot(key, |es|) == Slot(key', |es|) && key != key' && key != 0 && key' != 0
    requires es[Slot(key, |es|)].key == 0 && depth <= 127 && depth' <= 127
    requires node != NoNode && node' != NoNode && move.from != move.to && move'.from != move'.to && move != NO_MOVE && move' != NO_MOVE
    ensures var after := Stored(Stored(es, age, key, depth, ply, score, node, move), age, key', depth', ply', score', node', move');
      && MoveIn(after, key, NO_MOVE) == (if depth > depth' then move else NO_MOVE)
      && MoveIn(after, key', NO_MOVE) == (if depth > depth' then NO_MOVE else move')
  {
    hide Slot, ScoreToTable;
  }
}
