/**
 The transposition table.  Each entry remembers, for the proof only, the search that stored
 it; the entry is true when its score bounds the value of that search as its type says.
 */
module TranspositionTable {
  import opened Types
  import opened Rules
  import opened Zobrist
  import opened MoveSets
  import opened Minimax

  datatype NodeType = NoNode | Exact | LowerBound | UpperBound

  datatype Entry = Entry(key: bv64, best: Move, score: int, depth: int, node: NodeType, age: int)

  const EMPTY_ENTRY := Entry(0, NO_MOVE, 0, 0, NoNode, 0)

  /** The search behind an entry.  The root of a search is not subject to the fifty-move test. */
  datatype Origin = Origin(pos: Position, depth: nat, ply: nat, root: bool)

  /** The value of the root: the best of its moves, whatever the fifty-move count. */
  ghost function RootValue(p: Position, depth: nat): int
    requires depth > 0
  {
    if Terminal(p) then 0 else
      SomeLegalMove(p);
      MaxOver(LegalSet(p), m => -Negamax(Apply(p, m), depth - 1, 1))
  }

  ghost function OriginValue(o: Origin): int {
    if o.root && o.depth > 0 then RootValue(o.pos, o.depth) else Negamax(o.pos, o.depth, o.ply)
  }

  /**
   Below a hundred halfmoves the root is an ordinary node.  From a hundred on an ordinary node
   is a draw, and the root is worth the same only if its best move is.
   */
  lemma RootValueIsNegamax(p: Position, depth: nat)
    requires depth > 0 && !Terminal(p)
    ensures RootValue(p, depth) == Negamax(p, depth, 0) <==> p.halfmove < 100 || RootValue(p, depth) == SCORE_DRAW
  {
    hide Legal, Apply;
    if p.halfmove < 100 {
      SomeLegalMove(p);
      NegamaxUnfolds(p, depth, 0);
      var f := m => -Negamax(Apply(p, m), depth - 1, 1);
      var v := MaxOver(LegalSet(p), f);
    }
  }

  const TT_MATE_BOUND := 800000

  /** Mate scores are stored relative to the node instead of the root. */
  function ScoreToTable(score: int, ply: int): int {
    if score >= TT_MATE_BOUND then score + ply
    else if score <= -TT_MATE_BOUND then score - ply
    else score
  }

  function ScoreFromTable(score: int, ply: int): int {
    if score >= TT_MATE_BOUND then score - ply
    else if score <= -TT_MATE_BOUND then score + ply
    else score
  }

  lemma ScoreRoundTrip(score: int, ply: nat)
    ensures ScoreFromTable(ScoreToTable(score, ply), ply) == score
  {
  }

  /** The conversion to a signed byte. */
  function Int8(d: int): int {
    (d + 128) % 256 - 128
  }

  function Remainder(k: int, n: nat): (i: nat)
    requires n > 0
    ensures i < n
  {
    k % n
  }

  /** `key & mask`, which on a power-of-two table is the remainder. */
  function Slot(key: bv64, n: nat): (i: nat)
    requires n > 0
    ensures i < n
  {
    Remainder(key as int, n)
  }

  predicate Bounds(node: NodeType, score: int, value: int) {
    match node
    case NoNode => true
    case Exact => value == score
    case LowerBound => value >= score
    case UpperBound => value <= score
  }

  /** An entry that tells the truth about the search that stored it. */
  ghost predicate EntryTrue(ks: Keys, e: Entry, o: Origin) {
    e.node != NoNode ==>
      && e.key == Hash(ks, o.pos)
      && e.depth == Int8(o.depth)
      && Bounds(e.node, ScoreFromTable(e.score, o.ply), OriginValue(o))
  }

  ghost predicate AllTrue(ks: Keys, es: seq<Entry>, os: seq<Origin>) {
    |es| == |os| && forall i :: 0 <= i < |es| ==> EntryTrue(ks, es[i], os[i])
  }

  /** A true bound, stored under its own key, keeps a table of true entries one. */
  lemma StoringKeepsTrue(ks: Keys, es: seq<Entry>, os: seq<Origin>, i: nat, e: Entry, o: Origin, score: int)
    requires |es| == |os| && i < |es|
    ensures (AllTrue(ks, es, os) && e.key == Hash(ks, o.pos) && e.depth == Int8(o.depth)
             && e.score == ScoreToTable(score, o.ply) && Bounds(e.node, score, OriginValue(o)))
            ==> AllTrue(ks, es[i := e], os[i := o])
  {
    hide Int8, ScoreToTable, ScoreFromTable, OriginValue, Hash, Bounds;
    ScoreRoundTrip(score, o.ply);
  }

  /** The replacement rule. */
  predicate Replaces(was: Entry, age: int, key: bv64, depth: int, node: NodeType) {
    || was.key == 0
    || (was.key == key && (depth >= was.depth || node == Exact))
    || (was.key != key && (was.age != age || depth >= was.depth))
  }

  // ---------------------------------------------------------------- the table as a value

  /** The table after storing a search outcome: one slot at most is different. */
  function Stored(es: seq<Entry>, age: int, key: bv64, depth: int, ply: int, score: int, node: NodeType, best: Move): (r: seq<Entry>)
    requires |es| > 0
    ensures |r| == |es|
  {
    var i := Slot(key, |es|);
    if Replaces(es[i], age, key, depth, node) then
      var move := if best.from == best.to && es[i].key == key then es[i].best else best;
      es[i := Entry(key, move, ScoreToTable(score, ply), Int8(depth), node, age)]
    else es
  }

  /** The move remembered for a key. */
  function MoveIn(es: seq<Entry>, key: bv64, fallback: Move): Move
    requires |es| > 0
  {
    var e := es[Slot(key, |es|)];
    if e.key == key && e.node != NoNode then e.best else fallback
  }

  function ScoreIn(es: seq<Entry>, key: bv64, ply: int): int
    requires |es| > 0
  {
    ScoreFromTable(es[Slot(key, |es|)].score, ply)
  }

  /** The entry for a key ends a node that is searched to `depth` with this window. */
  predicate Hit(es: seq<Entry>, key: bv64, depth: int, ply: int, alpha: int, beta: int)
    requires |es| > 0
  {
    var e := es[Slot(key, |es|)];
    var s := ScoreFromTable(e.score, ply);
    && e.key == key && e.depth >= depth
    && (e.node == Exact || (e.node == LowerBound && s >= beta) || (e.node == UpperBound && s <= alpha))
  }

  /**
   What a probe for the best move answers after a store, for every key: the stored move (or
   the older one if the stored move is no move), nothing for a key whose slot was taken, and
   what it answered before for all others.
   */
  lemma MoveAfterStore(es: seq<Entry>, age: int, key: bv64, depth: int, ply: int, score: int, node: NodeType, best: Move,
                       other: bv64, fallback: Move)
    requires |es| > 0 && node != NoNode
    ensures var after := Stored(es, age, key, depth, ply, score, node, best);
      var was := es[Slot(key, |es|)];
      MoveIn(after, other, fallback) ==
        if Slot(other, |es|) != Slot(key, |es|) || !Replaces(was, age, key, depth, node) then MoveIn(es, other, fallback)
        else if other != key then fallback
        else if best.from == best.to && was.key == key then was.best
        else best
  {
    hide Slot, Replaces;
  }

  /**
   Storing and probing fit: a result that was taken in ends a later search of the same node,
   no deeper and at the same distance from the root, with its own score, if its bound decides.
   */
  lemma StoredScoreComesBack(es: seq<Entry>, age: int, key: bv64, depth: nat, ply: nat, score: int, node: NodeType, best: Move,
                             asked: nat, alpha: int, beta: int)
    requires |es| > 0 && Replaces(es[Slot(key, |es|)], age, key, depth, node)
    ensures var after := Stored(es, age, key, depth, ply, score, node, best);
      && (Hit(after, key, asked, ply, alpha, beta) <==>
            asked <= Int8(depth)
            && (node == Exact || (node == LowerBound && score >= beta) || (node == UpperBound && score <= alpha)))
      && ScoreIn(after, key, ply) == score
  {
    hide Slot, Replaces, ScoreToTable, ScoreFromTable;
    ScoreRoundTrip(score, ply);
  }

  class Table {
    const entries: array<Entry>
    var age: int
    ghost var origins: seq<Origin>

    ghost predicate Valid()
      reads this
    {
      entries.Length > 0 && |origins| == entries.Length
    }

    ghost predicate Sound(ks: Keys)
      reads this`origins, entries
    {
      AllTrue(ks, entries[..], origins)
    }

    /** A table of `n` empty entries. */
    constructor (n: nat)
      requires n > 0
      ensures Valid() && fresh(entries) && entries.Length == n
      ensures forall ks: Keys :: Sound(ks)
    {
      entries := new Entry[n](_ => EMPTY_ENTRY);
      age := 0;
      origins := seq(n, _ => Origin(START, 0, 0, false));
      new;
      assert forall i :: 0 <= i < n ==> entries[..][i] == EMPTY_ENTRY;
    }

    method NewSearch()
      modifies this`age
      ensures age == (old(age) + 1) % 256
    {
      age := (age + 1) % 256;
    }

    /**
     Stores the outcome of the search `origin`.  Nothing but one slot changes, and a table
     of true entries stays one whenever the stored bound is true.
     */
    method Store(key: bv64, depth: int, ply: nat, score: int, node: NodeType, best: Move, ghost ks: Keys, ghost origin: Origin)
      requires Valid()
      modifies this`origins, entries
      ensures Valid()
      ensures entries[..] == Stored(old(entries[..]), age, key, depth, ply, score, node, best)
      ensures forall i :: 0 <= i < entries.Length && i != Slot(key, entries.Length) ==> entries[i] == old(entries[i])
      ensures var i := Slot(key, entries.Length); var was := old(entries[i]);
        if Replaces(was, age, key, depth, node) then
          var move := if best.from == best.to && was.key == key then was.best else best;
          entries[i] == Entry(key, move, ScoreToTable(score, ply), Int8(depth), node, age)
        else entries[i] == was
      ensures (old(Sound(ks)) && key == Hash(ks, origin.pos) && depth == origin.depth && ply == origin.ply
               && Bounds(node, score, OriginValue(origin))) ==> Sound(ks)
    {
      hide Slot, Int8, ScoreToTable, ScoreFromTable, OriginValue, Hash, AllTrue, Bounds;
      var i := Slot(key, entries.Length);
      var entry := entries[i];
      var replace := ShouldReplace(entry, key, depth, node);
      hide Replaces;
      if replace {
        var move := best;
        if move.from == move.to && entry.key == key {
          move := entry.best;
        }
        var stored := Entry(key, move, ScoreToTable(score, ply), Int8(depth), node, age);
        StoringKeepsTrue(ks, entries[..], origins, i, stored, origin, score);
        entries[i] := stored;
        origins := origins[i := origin];
        assert entries[..] == old(entries[..])[i := stored];
      }
    }

    method ShouldReplace(entry: Entry, key: bv64, depth: int, node: NodeType) returns (replace: bool)
      ensures replace <==> Replaces(entry, age, key, depth, node)
    {
      if entry.key == 0 {
        return true;
      }
      if entry.key == key {
        return depth >= entry.depth || node == Exact;
      }
      if entry.age != age {
        return true;
      }
      return depth >= entry.depth;
    }

    /** A cutoff score, if the entry for this key is deep enough and bounds the window. */
    method Probe(key: bv64, depth: int, ply: int, alpha: int, beta: int) returns (hit: bool, score: int, move: Move)
      requires Valid()
      ensures var e := entries[Slot(key, entries.Length)];
        var s := ScoreFromTable(e.score, ply);
        && (move == if e.key == key && e.node != NoNode then e.best else NO_MOVE)
        && (hit <==> (e.key == key && e.depth >= depth
                      && (e.node == Exact || (e.node == LowerBound && s >= beta) || (e.node == UpperBound && s <= alpha))))
        && (hit ==> score == s)
      ensures hit <==> Hit(entries[..], key, depth, ply, alpha, beta)
      ensures hit ==> score == ScoreIn(entries[..], key, ply)
      ensures move == MoveIn(entries[..], key, NO_MOVE)
    {
      hit, score, move := false, 0, NO_MOVE;
      var e := entries[Slot(key, entries.Length)];
      if e.key != key || e.node == NoNode {
        return;
      }
      move := e.best;
      if e.depth >= depth {
        var s := ScoreFromTable(e.score, ply);
        if e.node == Exact || (e.node == LowerBound && s >= beta) || (e.node == UpperBound && s <= alpha) {
          hit, score := true, s;
        }
      }
    }

    method ProbeMove(key: bv64, fallback: Move) returns (move: Move)
      requires Valid()
      ensures var e := entries[Slot(key, entries.Length)];
        move == if e.key == key && e.node != NoNode then e.best else fallback
      ensures move == MoveIn(entries[..], key, fallback)
    {
      var e := entries[Slot(key, entries.Length)];
      move := if e.key == key && e.node != NoNode then e.best else fallback;
    }
  }
}
