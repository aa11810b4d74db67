/**
 The search without a clock: which answers and which tables the engine's steps lead to when no
 reading stops them.  The order of equally ranked moves is left open by the sort, so these are
 relations; everything else is fixed by the position, the window and the table.
 */
module Clockless {
  import opened Types
  import opened Rules
  import opened Zobrist
  import opened MoveSets
  import opened Evaluator
  import opened Minimax
  import opened TranspositionTable
  import opened Ordering

  /** The legal moves, each once, in falling priority. */
  ghost predicate Listing(p: Position, ms: seq<Move>, tt: Move) {
    && (forall m: Move :: m in ms <==> Legal(p, m))
    && NoDuplicates(ms)
    && Ordered(p.squares, ms, tt)
  }

  function Higher(a: int, b: int): int {
    if b > a then b else a
  }

  // ---------------------------------------------------------------- quiescence

  function Front(ms: seq<Move>): (r: seq<Move>)
    requires ms != []
    ensures |r| == |ms| - 1
  {
    ms[..|ms| - 1]
  }

  function Last(ms: seq<Move>): Move
    requires ms != []
  {
    ms[|ms| - 1]
  }

  lemma FrontAndLast(ms: seq<Move>, m: Move)
    ensures Front(ms + [m]) == ms && Last(ms + [m]) == m
  {
  }

  /** Where alpha stands after the moves of `done`, none of which reached beta. */
  ghost predicate QuietReaches(p: Position, ply: int, alpha1: int, beta: int, done: seq<Move>, alpha: int)
    requires ply < MAX_PLY
    decreases MAX_PLY - ply, 0, |done|
  {
    if done == [] then alpha == alpha1 else
      exists w: int, reply: int ::
        QuietReaches(p, ply, alpha1, beta, Front(done), w) && QuietGoes(p, ply, beta, w, Last(done), reply, alpha)
  }

  /** From alpha `w` the move `m` is skipped, or answered by `reply` short of beta. */
  ghost predicate QuietGoes(p: Position, ply: int, beta: int, w: int, m: Move, reply: int, alpha: int)
    requires ply < MAX_PLY
    decreases MAX_PLY - ply - 1, 2
  {
    if m !in QuietMoves(p) then alpha == w
    else QuietAnswers(Apply(p, m), ply + 1, -beta, -w, reply) && -reply < beta && alpha == Higher(w, -reply)
  }

  /** After `done` the move `m` reaches beta, with this score. */
  ghost predicate QuietCuts(p: Position, ply: int, alpha1: int, beta: int, done: seq<Move>, m: Move, r: int)
    requires ply < MAX_PLY
    decreases MAX_PLY - ply, 0, |done| + 1
  {
    && m in QuietMoves(p)
    && r >= beta
    && exists w: int :: QuietReaches(p, ply, alpha1, beta, done, w) && QuietAnswers(Apply(p, m), ply + 1, -beta, -w, -r)
  }

  /** The loop over `ms` ends with `r`: by a cutoff or at its end. */
  ghost predicate QuietSearched(p: Position, ply: int, alpha1: int, beta: int, ms: seq<Move>, r: int)
    requires ply < MAX_PLY
    decreases MAX_PLY - ply, 0, |ms| + 2
  {
    || QuietReaches(p, ply, alpha1, beta, ms, r)
    || exists k :: 0 <= k < |ms| && QuietCuts(p, ply, alpha1, beta, ms[..k], ms[k], r)
  }

  /** Quiescence may answer `r`. */
  ghost predicate QuietAnswers(p: Position, ply: int, alpha0: int, beta: int, r: int)
    decreases if ply < MAX_PLY then MAX_PLY - ply else 0, 1
  {
    if Terminal(p) then r == TerminalScore(p, ply)
    else if p.halfmove >= 100 then r == SCORE_DRAW
    else if ply >= MAX_PLY then r == Evaluation(p)
    else if InCheck(p.squares, p.side) then
      exists ms: seq<Move> :: Listing(p, ms, NO_MOVE) && QuietSearched(p, ply, alpha0, beta, ms, r)
    else if Evaluation(p) >= beta then r == Evaluation(p)
    else
      exists ms: seq<Move> :: Listing(p, ms, NO_MOVE) && QuietSearched(p, ply, Higher(alpha0, Evaluation(p)), beta, ms, r)
  }

  // ---------------------------------------------------------------- full-width nodes

  /** A node to be searched.  The root is searched to its last move, whatever the scores. */
  datatype Node = Node(pos: Position, depth: nat, ply: nat, alpha: int, beta: int, root: bool)

  function RootNode(p: Position, depth: nat): Node {
    Node(p, depth, 0, -SCORE_INFINITY, SCORE_INFINITY, true)
  }

  function Inner(p: Position, depth: nat, ply: nat, alpha: int, beta: int): Node {
    Node(p, depth, ply, alpha, beta, false)
  }

  function Child(n: Node, m: Move, alpha: int): Node
    requires n.depth > 0
  {
    Inner(Apply(n.pos, m), n.depth - 1, n.ply + 1, -n.beta, -alpha)
  }

  /** How far a move loop has come: the table, the window's lower end, and the best move so far. */
  datatype Stand = Stand(es: seq<Entry>, alpha: int, best: int, move: Move)

  function Begin(n: Node, es: seq<Entry>, first: Move): Stand {
    Stand(es, n.alpha, -SCORE_INFINITY, first)
  }

  /** One more move is searched, with this score, and leaves this table. */
  function Tried(w: Stand, m: Move, score: int, es: seq<Entry>): Stand {
    Stand(es, Higher(w.alpha, score), Higher(w.best, score), if score > w.best then m else w.move)
  }

  function NodeTypeOf(best: int, alpha: int, beta: int): NodeType {
    if best >= beta then LowerBound else if best > alpha then Exact else UpperBound
  }

  /** The entry a searched node leaves behind. */
  function Kept(ks: Keys, age: int, n: Node, s: Stand): (es: seq<Entry>)
    requires |s.es| > 0
  {
    Stored(s.es, age, Hash(ks, n.pos), n.depth, n.ply, s.best,
      if n.root then Exact else NodeTypeOf(s.best, n.alpha, n.beta), s.move)
  }

  /** The loop of node `n` can stand at `s` after the moves of `done`. */
  ghost predicate Reaches(ks: Keys, age: int, n: Node, es: seq<Entry>, first: Move, done: seq<Move>, s: Stand)
    decreases n.depth, 0, |done|
  {
    if done == [] then s == Begin(n, es, first) else
      && n.depth > 0
      && exists w: Stand, reply: int ::
        && Reaches(ks, age, n, es, first, Front(done), w)
        && (n.root || |done| == 1 || w.alpha < n.beta)
        && Goes(ks, age, n, w, Last(done), reply, s)
  }

  /** From `w` the move `m` can be answered by `reply`, after which the loop stands at `s`. */
  ghost predicate Goes(ks: Keys, age: int, n: Node, w: Stand, m: Move, reply: int, s: Stand)
    requires n.depth > 0
    decreases n.depth - 1, 2
  {
    && Answers(ks, age, Child(n, m, w.alpha), w.es, reply, s.es)
    && s == Tried(w, m, -reply, s.es)
  }

  /** The move loop of a node can end at `s`: after its last move, or once alpha has reached beta. */
  ghost predicate Searched(ks: Keys, age: int, n: Node, es: seq<Entry>, first: Move, ms: seq<Move>, s: Stand)
    decreases n.depth, 0, |ms| + 1
  {
    exists k :: 0 <= k <= |ms| && Reaches(ks, age, n, es, first, ms[..k], s)
      && (k == |ms| || (!n.root && s.alpha >= n.beta))
  }

  /** A node searched with table `es` can answer `r` and leave the table `after`. */
  ghost predicate Answers(ks: Keys, age: int, n: Node, es: seq<Entry>, r: int, after: seq<Entry>)
    decreases n.depth, 1
  {
    var p := n.pos;
    var key := Hash(ks, p);
    if |es| == 0 then false
    else if p.halfmove >= 100 then r == SCORE_DRAW && after == es
    else if n.ply > 0 && Hit(es, key, n.depth, n.ply, n.alpha, n.beta) then r == ScoreIn(es, key, n.ply) && after == es
    else if n.depth == 0 then QuietAnswers(p, n.ply, n.alpha, n.beta, r) && after == es
    else if Terminal(p) then r == TerminalScore(p, n.ply) && after == es
    else exists ms: seq<Move>, s: Stand ::
      && ms != [] && Listing(p, ms, MoveIn(es, key, NO_MOVE))
      && Searched(ks, age, n, es, ms[0], ms, s) && |s.es| > 0
      && r == s.best && after == Kept(ks, age, n, s)
  }

  // ---------------------------------------------------------------- iterative deepening

  datatype SearchResult = SearchResult(best: Move, score: int, depth: int, nodes: int)

  function AbsScore(x: int): int {
    if x < 0 then -x else x
  }

  /** A mate has been seen; no deeper search is needed. */
  predicate Forced(r: SearchResult) {
    AbsScore(r.score) >= SCORE_MATE - 100
  }

  /** Between two iterations: the root moves as last sorted, the result so far, and the table. */
  datatype Stage = Stage(order: seq<Move>, result: SearchResult, es: seq<Entry>)

  /** Before the first iteration the first generated move is the fallback. */
  ghost predicate Opening(p: Position, es: seq<Entry>, a: Stage) {
    && a.order != [] && NoDuplicates(a.order) && (forall m: Move :: m in a.order <==> Legal(p, m))
    && a == Stage(a.order, SearchResult(a.order[0], 0, 0, 0), es)
  }

  /** One complete iteration. */
  ghost predicate Iterates(ks: Keys, age: int, p: Position, depth: nat, a: Stage, b: Stage)
  {
    && a.order != [] && |a.es| > 0
    && Listing(p, b.order, MoveIn(a.es, Hash(ks, p), a.result.best))
    && exists s: Stand ::
      && Searched(ks, age, RootNode(p, depth), a.es, a.order[0], b.order, s) && |s.es| > 0
      && b.result == a.result.(best := s.move, score := s.best, depth := depth)
      && b.es == Kept(ks, age, RootNode(p, depth), s)
  }

  /** Depths 1 to `depth`, all complete, none but the last with a forced mate, end at `b`. */
  ghost predicate Deepened(ks: Keys, age: int, p: Position, es: seq<Entry>, depth: nat, b: Stage)
  {
    if depth == 0 then Opening(p, es, b) else
      exists a: Stage :: Deepened(ks, age, p, es, depth - 1, a) && !Forced(a.result) && Iterates(ks, age, p, depth, a, b)
  }

  // ---------------------------------------------------------------- the record of stores

  /**
   A store: the node, the search that led to it, begun when `since` stores had been made, and
   the reading of the clock at which it was made.
   */
  datatype Filed = Filed(node: Node, since: nat, before: seq<Entry>, first: Move, order: seq<Move>, stand: Stand, reading: nat)

  /** The score was the outcome of a search of the node in which every reply was searched to its end. */
  ghost predicate Complete(ks: Keys, age: int, q: Filed) {
    && (forall m: Move :: m in q.order <==> Legal(q.node.pos, m))
    && Searched(ks, age, q.node, q.before, q.first, q.order, q.stand)
  }

  /** A table in which the stores of `log` have been made, in turn and nothing else. */
  ghost function Replayed(ks: Keys, age: int, base: seq<Entry>, log: seq<Filed>): (es: seq<Entry>)
    ensures |es| == |base|
  {
    if log == [] || |base| == 0 then base else
      var q := log[|log| - 1];
      Kept(ks, age, q.node, q.stand.(es := Replayed(ks, age, base, log[..|log| - 1])))
  }

  /** The search of `q` began with the table of its time, and ended with the table of the store. */
  ghost predicate Placed(ks: Keys, age: int, base: seq<Entry>, log: seq<Filed>, q: Filed) {
    && q.since <= |log|
    && q.before == Replayed(ks, age, base, log[..q.since])
    && q.stand.es == Replayed(ks, age, base, log)
  }

  /** Each store of the log was made in its place, for a completed search, and no later than `deadline`. */
  ghost predicate Orderly(ks: Keys, age: int, base: seq<Entry>, log: seq<Filed>, deadline: Option<nat>) {
    forall k :: 0 <= k < |log| ==>
      && Complete(ks, age, log[k]) && Placed(ks, age, base, log[..k], log[k])
      && (deadline.Some? ==> log[k].reading <= deadline.value)
  }

  lemma OrderlyBy(ks: Keys, age: int, base: seq<Entry>, log: seq<Filed>, deadline: Option<nat>, q: Filed)
    requires Orderly(ks, age, base, log, deadline) && Complete(ks, age, q) && Placed(ks, age, base, log, q)
    requires deadline.Some? ==> q.reading <= deadline.value
    ensures Orderly(ks, age, base, log + [q], deadline)
  {
    hide Complete, Placed;
    forall k | 0 <= k < |log + [q]|
      ensures Complete(ks, age, (log + [q])[k]) && Placed(ks, age, base, (log + [q])[..k], (log + [q])[k])
      ensures deadline.Some? ==> (log + [q])[k].reading <= deadline.value
    {
      assert (log + [q])[..k] == log[..k];
      if k == |log| {
        assert log[..k] == log;
      }
    }
  }

  lemma OneMoreStore(ks: Keys, age: int, base: seq<Entry>, log: seq<Filed>, q: Filed)
    requires |base| > 0 && q.stand.es == Replayed(ks, age, base, log)
    ensures Replayed(ks, age, base, log + [q]) == Kept(ks, age, q.node, q.stand)
  {
    hide Kept;
    assert (log + [q])[..|log|] == log;
  }

  // ---------------------------------------------------------------- loop steps

  lemma QuietReachesSkip(p: Position, ply: int, alpha1: int, beta: int, done: seq<Move>, m: Move, alpha: int)
    requires ply < MAX_PLY && QuietReaches(p, ply, alpha1, beta, done, alpha) && m !in QuietMoves(p)
    ensures QuietReaches(p, ply, alpha1, beta, done + [m], alpha)
  {
    hide QuietMoves, QuietAnswers, Front, Last;
    FrontAndLast(done, m);
    assert QuietGoes(p, ply, beta, alpha, m, 0, alpha);
  }

  lemma QuietReachesStep(p: Position, ply: int, alpha1: int, beta: int, done: seq<Move>, m: Move, alpha: int, score: int)
    requires ply < MAX_PLY && QuietReaches(p, ply, alpha1, beta, done, alpha) && m in QuietMoves(p)
    requires QuietAnswers(Apply(p, m), ply + 1, -beta, -alpha, -score) && score < beta
    ensures QuietReaches(p, ply, alpha1, beta, done + [m], Higher(alpha, score))
  {
    hide QuietMoves, QuietAnswers, Front, Last;
    FrontAndLast(done, m);
    assert -(-score) == score;
    assert QuietGoes(p, ply, beta, alpha, m, -score, Higher(alpha, score));
  }

  lemma ReachesStep(ks: Keys, age: int, n: Node, es: seq<Entry>, first: Move, done: seq<Move>, w: Stand, m: Move,
                    score: int, after: seq<Entry>)
    requires n.depth > 0 && Reaches(ks, age, n, es, first, done, w) && (n.root || done == [] || w.alpha < n.beta)
    requires Answers(ks, age, Child(n, m, w.alpha), w.es, -score, after)
    ensures Reaches(ks, age, n, es, first, done + [m], Tried(w, m, score, after))
  {
    hide Answers, Child, Tried, Front, Last;
    FrontAndLast(done, m);
    assert -(-score) == score;
    assert Goes(ks, age, n, w, m, -score, Tried(w, m, score, after)) by {
      TriedLeaves(w, m, score, after);
    }
  }

  lemma TriedLeaves(w: Stand, m: Move, score: int, after: seq<Entry>)
    ensures Tried(w, m, score, after).es == after
  {
  }

  lemma SearchedTo(ks: Keys, age: int, n: Node, es: seq<Entry>, first: Move, ms: seq<Move>, k: nat, s: Stand)
    requires k <= |ms| && Reaches(ks, age, n, es, first, ms[..k], s)
    requires k == |ms| || (!n.root && s.alpha >= n.beta)
    ensures Searched(ks, age, n, es, first, ms, s)
  {
    hide Reaches;
  }

  lemma Expanded(ks: Keys, age: int, n: Node, es: seq<Entry>, ms: seq<Move>, s: Stand)
    requires |es| > 0 && n.pos.halfmove < 100 && n.depth > 0 && !Terminal(n.pos)
    requires n.ply > 0 ==> !Hit(es, Hash(ks, n.pos), n.depth, n.ply, n.alpha, n.beta)
    requires ms != [] && Listing(n.pos, ms, MoveIn(es, Hash(ks, n.pos), NO_MOVE))
    requires Searched(ks, age, n, es, ms[0], ms, s) && |s.es| > 0
    ensures Answers(ks, age, n, es, s.best, Kept(ks, age, n, s))
  {
    hide Searched, Listing, Terminal, Hit, Kept, Hash;
  }
}
