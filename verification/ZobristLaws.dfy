/** The key looks at everything it should: positions that differ have different keys for some key table. */
module ZobristLaws {
  import opened Types
  import opened Rules
  import opened Zobrist

  /** What two positions must share to be taken for one: men, turn, rights, and the file of the target. */
  predicate Alike(p: Position, q: Position) {
    && p.squares == q.squares && p.side == q.side && p.rights == q.rights
    && TargetFile(p.ep) == TargetFile(q.ep)
  }

  function TargetFile(ep: Option<Square>): Option<int> {
    if ep.Some? then Some(File(ep.value)) else None
  }

  function NoKeys(): Keys {
    KeyTable(seq(768, _ => 0), seq(16, _ => 0), seq(8, _ => 0), 0)
  }

  function ManIndex(c: Color, k: Kind, s: Square): (i: nat)
    ensures i < 768
  {
    ((if c == White then 0 else 6) + KindIndex(k)) * 64 + s
  }

  /** The only key that is not zero belongs to this man on this square. */
  function OnlyMan(c: Color, k: Kind, s: Square): Keys {
    var none := NoKeys();
    none.(pieces := none.pieces[ManIndex(c, k, s) := 1])
  }

  function OnlyRights(r: Rights): Keys {
    var none := NoKeys();
    none.(castling := none.castling[RightsMask(r) := 1])
  }

  function OnlyFile(f: int): Keys
    requires 0 <= f < 8
  {
    var none := NoKeys();
    none.(enPassant := none.enPassant[f := 1])
  }

  function OnlySide(): Keys {
    NoKeys().(blackToMove := 1)
  }

  lemma IndexTellsApart(c: Color, k: Kind, s: Square, c': Color, k': Kind, s': Square)
    requires ManIndex(c, k, s) == ManIndex(c', k', s')
    ensures c == c' && k == k' && s == s'
  {
    SameKind(k, k');
  }

  lemma SameKind(j: Kind, k: Kind)
    ensures KindIndex(j) == KindIndex(k) ==> j == k
  {
  }

  lemma MaskTellsApart(r: Rights, r': Rights)
    requires RightsMask(r) == RightsMask(r')
    ensures r == r'
  {
  }

  lemma BitUnits()
    ensures Xor(0, 0) == 0 && Xor(1, 0) == 1 && Xor(0, 1) == 1
  {
  }

  lemma {:induction false} OnlyManHash(c: Color, k: Kind, s: Square, b: Placement, n: nat)
    requires n <= 64
    ensures SquaresHash(OnlyMan(c, k, s), b, n) == if s < n && b[s] == Man(c, k) then 1 else 0
  {
    hide Xor;
    BitUnits();
    if n > 0 {
      OnlyManHash(c, k, s, b, n - 1);
      OnlyManKey(c, k, s, b[n - 1], n - 1);
    }
  }

  lemma OnlyManKey(c: Color, k: Kind, s: Square, pc: Piece, x: Square)
    ensures PieceKey(OnlyMan(c, k, s), pc, x) == if pc == Man(c, k) && x == s then 1 else 0
  {
    hide ManIndex;
    if pc.Man? {
      assert ManKey(OnlyMan(c, k, s), pc.color, pc.kind, x) == OnlyMan(c, k, s).pieces[ManIndex(pc.color, pc.kind, x)] by {
        KeyAt(OnlyMan(c, k, s), pc.color, pc.kind, x);
      }
      if ManIndex(pc.color, pc.kind, x) == ManIndex(c, k, s) {
        IndexTellsApart(pc.color, pc.kind, x, c, k, s);
      }
    }
  }

  lemma KeyAt(ks: Keys, c: Color, k: Kind, x: Square)
    ensures ManKey(ks, c, k, x) == ks.pieces[ManIndex(c, k, x)]
  {
  }

  lemma {:induction false} NoMenHash(ks: Keys, b: Placement, n: nat)
    requires n <= 64 && forall i :: 0 <= i < 768 ==> ks.pieces[i] == 0
    ensures SquaresHash(ks, b, n) == 0
  {
    hide Xor;
    BitUnits();
    if n > 0 {
      NoMenHash(ks, b, n - 1);
      if b[n - 1].Man? {
        KeyAt(ks, b[n - 1].color, b[n - 1].kind, n - 1);
      }
    }
  }

  lemma OnlyManTells(c: Color, k: Kind, s: Square, p: Position)
    ensures Hash(OnlyMan(c, k, s), p) == if p.squares[s] == Man(c, k) then 1 else 0
  {
    hide Xor, SquaresHash, ManIndex;
    BitUnits();
    OnlyManHash(c, k, s, p.squares, 64);
  }

  lemma OnlyRightsTells(r: Rights, p: Position)
    ensures Hash(OnlyRights(r), p) == if p.rights == r then 1 else 0
  {
    hide Xor, SquaresHash, RightsMask;
    BitUnits();
    NoMenHash(OnlyRights(r), p.squares, 64);
    if RightsMask(p.rights) == RightsMask(r) {
      MaskTellsApart(p.rights, r);
    }
  }

  lemma OnlyFileTells(f: int, p: Position)
    requires 0 <= f < 8
    ensures Hash(OnlyFile(f), p) == if TargetFile(p.ep) == Some(f) then 1 else 0
  {
    hide Xor, SquaresHash, RightsMask;
    BitUnits();
    NoMenHash(OnlyFile(f), p.squares, 64);
  }

  lemma OnlySideTells(p: Position)
    ensures Hash(OnlySide(), p) == if p.side == Black then 1 else 0
  {
    hide Xor, SquaresHash, RightsMask;
    BitUnits();
    NoMenHash(OnlySide(), p.squares, 64);
  }

  lemma AlikeShareKeys(ks: Keys, p: Position, q: Position)
    requires Alike(p, q)
    ensures Hash(ks, p) == Hash(ks, q)
  {
    hide SquaresHash, Xor;
  }

  /** Two positions have one key for every table of key numbers exactly when they are alike. */
  lemma KeysTellApart(p: Position, q: Position)
    ensures (forall ks: Keys :: Hash(ks, p) == Hash(ks, q)) <==> Alike(p, q)
  {
    hide Hash;
    if Alike(p, q) {
      forall ks: Keys
        ensures Hash(ks, p) == Hash(ks, q)
      {
        AlikeShareKeys(ks, p, q);
      }
    }
    if forall ks: Keys :: Hash(ks, p) == Hash(ks, q) {
      forall s: Square
        ensures p.squares[s] == q.squares[s]
      {
        SameMan(p, q, s);
        SameMan(q, p, s);
      }
      assert p.squares == q.squares;
      OnlySideTells(p);
      OnlySideTells(q);
      assert Hash(OnlySide(), p) == Hash(OnlySide(), q);
      OnlyRightsTells(p.rights, p);
      OnlyRightsTells(p.rights, q);
      assert Hash(OnlyRights(p.rights), p) == Hash(OnlyRights(p.rights), q);
      SameTarget(p, q);
      SameTarget(q, p);
    }
  }

  lemma SameMan(p: Position, q: Position, s: Square)
    requires forall ks: Keys :: Hash(ks, p) == Hash(ks, q)
    ensures p.squares[s].Man? ==> q.squares[s] == p.squares[s]
  {
    hide Hash;
    if p.squares[s].Man? {
      var pc := p.squares[s];
      OnlyManTells(pc.color, pc.kind, s, p);
      OnlyManTells(pc.color, pc.kind, s, q);
      assert Hash(OnlyMan(pc.color, pc.kind, s), p) == Hash(OnlyMan(pc.color, pc.kind, s), q);
    }
  }

  lemma SameTarget(p: Position, q: Position)
    requires forall ks: Keys :: Hash(ks, p) == Hash(ks, q)
    ensures p.ep.Some? ==> TargetFile(q.ep) == TargetFile(p.ep)
  {
    hide Hash;
    if p.ep.Some? {
      var f := File(p.ep.value);
      OnlyFileTells(f, p);
      OnlyFileTells(f, q);
      assert Hash(OnlyFile(f), p) == Hash(OnlyFile(f), q);
    }
  }
}
