/** The move-path counter: it counts the legal lines of a given length. */
module Perft {
  import opened Types
  import opened Rules
  import opened Reversal
  import opened Invariant
  import opened Zobrist
  import opened BoardState
  import opened MoveGen
  import opened MoveSets
  import opened San

  /** `m` played before each line of `ls`. */
  function Prefixed(m: Move, ls: set<seq<Move>>): set<seq<Move>> {
    set l | l in ls :: [m] + l
  }

  /** Every way to play `d` legal moves from `p`. */
  ghost function Lines(p: Position, d: nat): set<seq<Move>>
    decreases d
  {
    hide Legal, Apply;
    if d == 0 then {[]} else set m, l | m in LegalSet(p) && l in Lines(Apply(p, m), d - 1) :: [m] + l
  }

  lemma {:induction false} LineFromFront(p: Position, m: Move, l: seq<Move>)
    ensures Replay(p, [m] + l) == Replay(Apply(p, m), l)
    ensures LegalLine(p, [m] + l) <==> Legal(p, m) && LegalLine(Apply(p, m), l)
  {
    hide Legal, Apply;
    var all := [m] + l;
    if l == [] {
      assert all == [m] && all[..0] == [];
    } else {
      var n := |l| - 1;
      LineFromFront(p, m, l[..n]);
      assert all[..|all| - 1] == [m] + l[..n] && all[|all| - 1] == l[n];
    }
  }

  lemma LinesHead(p: Position, d: nat, l: seq<Move>)
    requires d > 0
    ensures l in Lines(p, d) <==> |l| > 0 && Legal(p, l[0]) && l[1..] in Lines(Apply(p, l[0]), d - 1)
  {
    hide Legal, Apply;
    if |l| > 0 && Legal(p, l[0]) && l[1..] in Lines(Apply(p, l[0]), d - 1) {
      assert l == [l[0]] + l[1..];
    }
    if l in Lines(p, d) {
      var m, t :| m in LegalSet(p) && t in Lines(Apply(p, m), d - 1) && l == [m] + t;
      assert l[0] == m && l[1..] == t;
    }
  }

  /** The counted lines are exactly the legal lines of length `d`. */
  lemma {:induction false} LinesAreLegalLines(p: Position, d: nat, l: seq<Move>)
    ensures l in Lines(p, d) <==> |l| == d && LegalLine(p, l)
    decreases d
  {
    hide Legal, Apply, LegalLine, Lines;
    if d == 0 {
      OnlyEmptyLine(p, l);
    } else {
      LinesHead(p, d, l);
      if |l| > 0 {
        LinesAreLegalLines(Apply(p, l[0]), d - 1, l[1..]);
        LineFromFront(p, l[0], l[1..]);
        assert l == [l[0]] + l[1..];
      } else {
        assert d > 0;
      }
    }
  }

  lemma OnlyEmptyLine(p: Position, l: seq<Move>)
    ensures l in Lines(p, 0) <==> l == []
    ensures LegalLine(p, [])
  {
  }

  lemma {:induction false} PrefixedSize(m: Move, ls: set<seq<Move>>)
    ensures |Prefixed(m, ls)| == |ls|
    decreases |ls|
  {
    if ls == {} {
      assert Prefixed(m, ls) == {};
    } else {
      var l :| l in ls;
      PrefixedSize(m, ls - {l});
      assert Prefixed(m, ls) == Prefixed(m, ls - {l}) + {[m] + l} by {
        assert ls == (ls - {l}) + {l};
      }
      assert [m] + l !in Prefixed(m, ls - {l}) by {
        forall k | k in ls - {l}
          ensures [m] + k != [m] + l
        {
          assert ([m] + k)[1..] == k && ([m] + l)[1..] == l;
        }
      }
    }
  }

  /** The lines that start with one of the first `i` moves. */
  ghost function LinesOf(p: Position, d: nat, moves: seq<Move>, i: nat): set<seq<Move>>
    requires i <= |moves|
    decreases i
  {
    if i == 0 then {} else LinesOf(p, d, moves, i - 1) + Prefixed(moves[i - 1], Lines(Apply(p, moves[i - 1]), d))
  }

  lemma {:induction false} LinesOfHead(p: Position, d: nat, moves: seq<Move>, i: nat, l: seq<Move>)
    requires i <= |moves|
    ensures l in LinesOf(p, d, moves, i) <==> |l| > 0 && l[0] in moves[..i] && l[1..] in Lines(Apply(p, l[0]), d)
    decreases i
  {
    hide Apply, Lines;
    if i > 0 {
      LinesOfHead(p, d, moves, i - 1, l);
      var m := moves[i - 1];
      assert moves[..i] == moves[..i - 1] + [m];
      if |l| > 0 && l[0] == m && l[1..] in Lines(Apply(p, m), d) {
        assert l == [m] + l[1..];
      }
      if l in Prefixed(m, Lines(Apply(p, m), d)) {
        var t :| t in Lines(Apply(p, m), d) && l == [m] + t;
        assert l[0] == m && l[1..] == t;
      }
    }
  }

  lemma NextMoveAdds(p: Position, d: nat, moves: seq<Move>, i: nat)
    requires i < |moves| && NoDuplicates(moves)
    ensures |LinesOf(p, d, moves, i + 1)| == |LinesOf(p, d, moves, i)| + |Lines(Apply(p, moves[i]), d)|
  {
    hide Apply, Lines;
    var m := moves[i];
    var next := Prefixed(m, Lines(Apply(p, m), d));
    PrefixedSize(m, Lines(Apply(p, m), d));
    forall l | l in next
      ensures l !in LinesOf(p, d, moves, i)
    {
      LinesOfHead(p, d, moves, i, l);
    }
    assert LinesOf(p, d, moves, i) !! next;
  }

  lemma AllMovesGiveAllLines(p: Position, d: nat, moves: seq<Move>)
    requires forall m: Move :: m in moves <==> Legal(p, m)
    ensures LinesOf(p, d, moves, |moves|) == Lines(p, d + 1)
  {
    hide Apply, Lines, LinesOf, Legal;
    forall l: seq<Move>
      ensures l in LinesOf(p, d, moves, |moves|) <==> l in Lines(p, d + 1)
    {
      LinesOfHead(p, d, moves, |moves|, l);
      LinesHead(p, d + 1, l);
      assert moves[..|moves|] == moves;
    }
  }

  lemma OneMoveEach(p: Position, d: nat, moves: seq<Move>, i: nat)
    requires i <= |moves| && NoDuplicates(moves)
    ensures |LinesOf(p, 0, moves, i)| == i
    decreases i
  {
    hide Apply;
    if i > 0 {
      OneMoveEach(p, d, moves, i - 1);
      NextMoveAdds(p, 0, moves, i - 1);
    }
  }

  /** Counts the legal lines of length `depth`, and leaves the board as it was. */
  method Count(b: Board, depth: nat) returns (nodes: nat)
    requires b.Valid() && Inv(b.View())
    modifies b, b.squares
    ensures b.View() == old(b.View()) && b.key == old(b.key)
    ensures nodes == |Lines(b.View(), depth)|
    decreases depth
  {
    hide Inv, Legal, Apply, Lines, LinesOf, Retract, Relocated, Shape;
    ghost var p, key := b.View(), b.key;
    if depth == 0 {
      OneEmptyLine(p);
      return 1;
    }
    var moves := GenerateLegalMoves(b);
    AllMovesGiveAllLines(p, depth - 1, moves);
    if depth == 1 {
      OneMoveEach(p, 0, moves, |moves|);
      return |moves|;
    }
    nodes := 0;
    NoLines(p, depth - 1, moves);
    for i := 0 to |moves|
      invariant b.View() == p && b.key == key
      invariant nodes == |LinesOf(p, depth - 1, moves, i)|
    {
      var m := moves[i];
      assert m in moves;
      LegalMoveIsPlayable(p, m);
      LegalMoveKeepsInvariant(p, m);
      RetractUndoesApply(p, m, key);
      SideAfter(p, m);
      var undo := b.MakeMove(m);
      var below := Count(b, depth - 1);
      b.UndoMove(m, undo);
      NextMoveAdds(p, depth - 1, moves, i);
      nodes := nodes + below;
    }
  }

  lemma SideAfter(p: Position, m: Move)
    ensures Apply(p, m).side == Opposite(p.side)
  {
  }

  lemma OneEmptyLine(p: Position)
    ensures |Lines(p, 0)| == 1
  {
  }

  lemma NoLines(p: Position, d: nat, moves: seq<Move>)
    ensures LinesOf(p, d, moves, 0) == {}
  {
  }
}
