/** The vocabulary of the chess core: colours, pieces, squares, moves and castling rights. */
module Types {

  datatype Option<+T> = None | Some(value: T)

  datatype Color = White | Black

  datatype Kind = Pawn | Knight | Bishop | Rook | Queen | King

  /** An empty square, or a man of some colour; the NONE/NONE piece of the source is `Empty`. */
  datatype Piece = Empty | Man(color: Color, kind: Kind)

  /** a1 = 0, b1 = 1, ..., h8 = 63. */
  type Square = s: int | 0 <= s < 64

  /** The 64-square mailbox as a value. */
  type Placement = b: seq<Piece> | |b| == 64 witness seq(64, _ => Empty)

  /** The five bits of a move's flag byte. */
  datatype Flags = Flags(promotion: bool, enPassant: bool, kingside: bool, queenside: bool, doublePush: bool)

  const PLAIN := Flags(false, false, false, false, false)
  const PROMOTION := Flags(true, false, false, false, false)
  const EN_PASSANT := Flags(false, true, false, false, false)
  const KINGSIDE_CASTLE := Flags(false, false, true, false, false)
  const QUEENSIDE_CASTLE := Flags(false, false, false, true, false)
  const DOUBLE_PAWN_PUSH := Flags(false, false, false, false, true)

  datatype Move = Move(from: Square, to: Square, flags: Flags, promo: Option<Kind>)

  /** The default-constructed move, which the source uses for "no move". */
  const NO_MOVE := Move(0, 0, PLAIN, None)

  /** The four bits of the castling mask. */
  datatype Rights = Rights(wk: bool, wq: bool, bk: bool, bq: bool)

  const NO_RIGHTS := Rights(false, false, false, false)

  const A1: Square := 0
  const B1: Square := 1
  const C1: Square := 2
  const D1: Square := 3
  const E1: Square := 4
  const F1: Square := 5
  const G1: Square := 6
  const H1: Square := 7
  const A8: Square := 56
  const B8: Square := 57
  const C8: Square := 58
  const D8: Square := 59
  const E8: Square := 60
  const F8: Square := 61
  const G8: Square := 62
  const H8: Square := 63

  function Opposite(c: Color): Color {
    if c == White then Black else White
  }

  /** The rank step of a pawn of colour `c`. */
  function Forward(c: Color): int {
    if c == White then 1 else -1
  }

  function Rank(s: Square): int {
    s / 8
  }

  function File(s: Square): int {
    s % 8
  }

  predicate OnBoard(r: int, f: int) {
    0 <= r < 8 && 0 <= f < 8
  }

  function At(r: int, f: int): Square
    requires OnBoard(r, f)
  {
    8 * r + f
  }

  predicate NoDuplicates<T(==)>(s: seq<T>) {
    forall i, j :: 0 <= i < j < |s| ==> s[i] != s[j]
  }

  lemma NoDuplicatesConcat<T>(a: seq<T>, b: seq<T>)
    requires NoDuplicates(a) && NoDuplicates(b)
    requires forall x :: x in b ==> x !in a
    ensures NoDuplicates(a + b)
  {
    forall i, j | 0 <= i < j < |a + b|
      ensures (a + b)[i] != (a + b)[j]
    {
      if i < |a| <= j {
        assert b[j - |a|] in b;
      }
    }
  }
}
