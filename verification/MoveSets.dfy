/** Finite sets of moves, their sizes, and sums over the board. */
module MoveSets {
  import opened Types
  import opened Rules

  function SquaresBelow(n: nat): (s: set<Square>)
    requires n <= 64
    ensures forall x: Square :: x in s <==> x < n
  {
    if n == 0 then {} else SquaresBelow(n - 1) + {n - 1}
  }

  function Squares(): set<Square> {
    SquaresBelow(64)
  }

  function AllFlags(): set<Flags> {
    set a <- {false, true}, b <- {false, true}, c <- {false, true}, d <- {false, true}, e <- {false, true}
      :: Flags(a, b, c, d, e)
  }

  function AllPromos(): set<Option<Kind>> {
    {None, Some(Pawn), Some(Knight), Some(Bishop), Some(Rook), Some(Queen), Some(King)}
  }

  /** Every value of type `Move`. */
  function AllMoves(): set<Move> {
    set f <- Squares(), t <- Squares(), fl <- AllFlags(), pr <- AllPromos() :: Move(f, t, fl, pr)
  }

  lemma EveryMoveListed(m: Move)
    ensures m in AllMoves()
  {
    assert m.from in Squares() && m.to in Squares();
    assert m.flags == Flags(m.flags.promotion, m.flags.enPassant, m.flags.kingside, m.flags.queenside, m.flags.doublePush);
    assert m.flags in AllFlags();
    assert m.promo in AllPromos() by {
      match m.promo
      case None =>
      case Some(Pawn) =>
      case Some(Knight) =>
      case Some(Bishop) =>
      case Some(Rook) =>
      case Some(Queen) =>
      case Some(King) =>
    }
    assert m == Move(m.from, m.to, m.flags, m.promo);
  }

  ghost function LegalSet(p: Position): (s: set<Move>)
    ensures forall m: Move :: m in s <==> Legal(p, m)
  {
    assert forall m: Move :: m in AllMoves() by {
      forall m: Move
        ensures m in AllMoves()
      {
        EveryMoveListed(m);
      }
    }
    set m | m in AllMoves() && Legal(p, m)
  }

  /** The moves the generator lists for the man of `c` on `s`. */
  ghost function PieceMoveSet(p: Position, s: Square, c: Color): (ms: set<Move>)
    ensures forall m: Move :: m in ms <==> PieceMove(p, s, c, m)
  {
    assert forall m: Move :: m in AllMoves() by {
      forall m: Move
        ensures m in AllMoves()
      {
        EveryMoveListed(m);
      }
    }
    set m | m in AllMoves() && PieceMove(p, s, c, m)
  }

  /** How many moves each square's man of colour `c` has. */
  ghost function MoveCounts(p: Position, c: Color): (ns: seq<int>)
    ensures |ns| == 64 && forall s: Square :: ns[s] == |PieceMoveSet(p, s, c)|
  {
    seq(64, s requires 0 <= s < 64 => |PieceMoveSet(p, s, c)|)
  }

  /** The number of pseudo-legal moves of `c`, counted man by man. */
  ghost function MoveCount(p: Position, c: Color): int {
    Sum(MoveCounts(p, c))
  }

  // ---------------------------------------------------------------- sizes

  /** A list without duplicates is as long as the set of its members is large. */
  lemma {:induction false} ListSize<T>(s: seq<T>, members: set<T>)
    requires NoDuplicates(s) && forall x :: x in members <==> x in s
    ensures |members| == |s|
  {
    if s != [] {
      var last := s[|s| - 1];
      var front := s[..|s| - 1];
      assert last in s && s == front + [last];
      ListSize(front, members - {last});
    } else {
      assert members == {};
    }
  }

  /** A one-to-one correspondence preserves size. */
  lemma {:induction false} SameSize<A, B>(s: set<A>, t: set<B>, f: A -> B)
    requires forall x :: x in s ==> f(x) in t
    requires forall x, y :: x in s && y in s && f(x) == f(y) ==> x == y
    requires forall z :: z in t ==> exists x :: x in s && f(x) == z
    ensures |s| == |t|
  {
    if s == {} {
      assert t == {};
    } else {
      var x :| x in s;
      SameSize(s - {x}, t - {f(x)}, f);
    }
  }

  /** A set numbered one-to-one below `n` has at most `n` members. */
  lemma {:induction false} BoundedSize<A>(s: set<A>, code: A -> int, n: nat)
    requires forall x :: x in s ==> 0 <= code(x) < n
    requires forall x, y :: x in s && y in s && code(x) == code(y) ==> x == y
    ensures |s| <= n
    decreases n
  {
    if s != {} {
      var any :| any in s;
      if x :| x in s && code(x) == n - 1 {
        BoundedSize(s - {x}, code, n - 1);
      } else {
        BoundedSize(s, code, n - 1);
      }
    }
  }

  // ---------------------------------------------------------------- sums over the board

  function Sum(xs: seq<int>): int {
    if xs == [] then 0 else Sum(xs[..|xs| - 1]) + xs[|xs| - 1]
  }

  lemma SumEmpty(xs: seq<int>)
    ensures Sum(xs[..0]) == 0
  {
  }

  lemma SumStep(xs: seq<int>, n: nat)
    requires n < |xs|
    ensures Sum(xs[..n + 1]) == Sum(xs[..n]) + xs[n]
  {
    assert xs[..n + 1][..n] == xs[..n];
  }

  lemma SumWhole(xs: seq<int>)
    ensures Sum(xs[..|xs|]) == Sum(xs)
  {
    assert xs[..|xs|] == xs;
  }

  lemma {:induction false} SumConcat(xs: seq<int>, ys: seq<int>)
    ensures Sum(xs + ys) == Sum(xs) + Sum(ys)
  {
    if ys == [] {
      assert xs + ys == xs;
    } else {
      assert (xs + ys)[..|xs + ys| - 1] == xs + ys[..|ys| - 1];
      SumConcat(xs, ys[..|ys| - 1]);
    }
  }

  lemma {:induction false} SumBounds(xs: seq<int>, lo: int, hi: int)
    requires forall i :: 0 <= i < |xs| ==> lo <= xs[i] <= hi
    ensures lo * |xs| <= Sum(xs) <= hi * |xs|
  {
    if xs != [] {
      SumBounds(xs[..|xs| - 1], lo, hi);
    }
  }

  lemma SumOne(x: int)
    ensures Sum([x]) == x
  {
    assert [x][..0] == [];
  }

  /** Exactly one element is `big`; the others lie between 0 and `hi`. */
  lemma SumWithOneBig(xs: seq<int>, k: nat, big: int, hi: nat)
    requires k < |xs| && xs[k] == big
    requires forall i :: 0 <= i < |xs| && i != k ==> 0 <= xs[i] <= hi
    ensures big <= Sum(xs) <= big + hi * (|xs| - 1)
  {
    hide Sum;
    var a, b := xs[..k], xs[k + 1..];
    assert xs == a + [big] + b;
    SumConcat(a + [big], b);
    SumConcat(a, [big]);
    SumOne(big);
    SumBounds(a, 0, hi);
    SumBounds(b, 0, hi);
    assert |a| + |b| == |xs| - 1;
    assert hi * |a| + hi * |b| == hi * (|a| + |b|);
  }

  /** The square mirrored top to bottom, `s ^ 56`: the rank is turned over, the file stays (`FlipTwice`). */
  function Flip(s: Square): Square {
    s + 56 - 16 * Rank(s)
  }

  lemma FlipTwice(s: Square)
    ensures Flip(Flip(s)) == s
    ensures Rank(Flip(s)) == 7 - Rank(s) && File(Flip(s)) == File(s)
  {
  }

  /** Reading the board upside down does not change a sum over it. */
  lemma SumFlipped(xs: seq<int>, ys: seq<int>)
    requires |xs| == |ys| == 64
    requires forall s: Square :: ys[s] == xs[Flip(s)]
    ensures Sum(ys) == Sum(xs)
  {
    FlipFrom(xs, ys, 8);
    assert xs[64 - 64..] == xs && ys[..64] == ys;
  }

  lemma FlippedSquare(r: nat, i: nat)
    requires r < 8 && i < 8
    ensures Flip(8 * r + i) == 56 - 8 * r + i
  {
  }

  lemma FlippedRow(xs: seq<int>, ys: seq<int>, r: nat)
    requires |xs| == |ys| == 64 && r < 8
    requires forall s: Square :: ys[s] == xs[Flip(s)]
    ensures ys[8 * r..8 * r + 8] == xs[56 - 8 * r..64 - 8 * r]
  {
    hide Flip;
    var a, b := ys[8 * r..8 * r + 8], xs[56 - 8 * r..64 - 8 * r];
    forall i | 0 <= i < 8
      ensures a[i] == b[i]
    {
      FlippedSquare(r, i);
    }
  }

  lemma {:induction false} FlipFrom(xs: seq<int>, ys: seq<int>, n: nat)
    requires |xs| == |ys| == 64 && n <= 8
    requires forall s: Square :: ys[s] == xs[Flip(s)]
    ensures Sum(ys[..8 * n]) == Sum(xs[64 - 8 * n..])
  {
    hide Sum, Flip;
    if n == 0 {
      assert xs[64..] == ys[..0];
    } else {
      FlipFrom(xs, ys, n - 1);
      FlippedRow(xs, ys, n - 1);
      SplitSums(xs, ys, 8 * n - 8);
    }
  }

  lemma SplitSums(xs: seq<int>, ys: seq<int>, lo: nat)
    requires |xs| == |ys| == 64 && lo + 8 <= 64
    ensures Sum(ys[..lo + 8]) == Sum(ys[..lo]) + Sum(ys[lo..lo + 8])
    ensures Sum(xs[56 - lo..]) == Sum(xs[56 - lo..64 - lo]) + Sum(xs[64 - lo..])
  {
    hide Sum;
    assert ys[..lo + 8] == ys[..lo] + ys[lo..lo + 8];
    assert xs[56 - lo..] == xs[56 - lo..64 - lo] + xs[64 - lo..];
    SumConcat(ys[..lo], ys[lo..lo + 8]);
    SumConcat(xs[56 - lo..64 - lo], xs[64 - lo..]);
  }
}
