/** The piece records of the chess game and the two queries that look a
    square up in a snapshot of the live pieces. */
module Pieces {

  datatype Option<T> = None | Some(value: T)

  datatype PieceColor = Black | White

  datatype PieceType = Bishop | King | Knight | Pawn | Queen | Rook

  /** A board square (x, y). The game places pieces on 0..7 in both axes;
      White's pawns start on x = 1 and advance towards x = 7. */
  type Square = (int, int)

  datatype Piece = Piece(color: PieceColor, pieceType: PieceType, x: int, y: int)
  {
    function Pos(): Square { (x, y) }
  }

  predicate OnBoard(s: Square)
  {
    0 <= s.0 < 8 && 0 <= s.1 < 8
  }

  function Opponent(c: PieceColor): (o: PieceColor)
    ensures o != c
  {
    if c == White then Black else White
  }

  /** The intended board invariant: no two live pieces share a square. */
  predicate NoSharedSquares(pieces: seq<Piece>)
  {
    forall i, j :: 0 <= i < j < |pieces| ==> pieces[i].Pos() != pieces[j].Pos()
  }

  /** Position in `pieces` of the first piece standing on `pos`, or |pieces|
      when no piece stands there. */
  function FirstIndexOn(pos: Square, pieces: seq<Piece>): (k: nat)
    ensures k <= |pieces|
    ensures k < |pieces| ==> pieces[k].Pos() == pos
    ensures forall j :: 0 <= j < k ==> pieces[j].Pos() != pos
  {
    if |pieces| == 0 then 0
    else if pieces[0].Pos() == pos then 0
    else 1 + FirstIndexOn(pos, pieces[1..])
  }

  /** get_piece_on_square: the first piece of the snapshot found on `pos`. */
  function PieceOnSquare(pos: Square, pieces: seq<Piece>): (r: Option<Piece>)
    ensures r.None? <==> forall i :: 0 <= i < |pieces| ==> pieces[i].Pos() != pos
    ensures r.Some? ==>
      exists k :: 0 <= k < |pieces| && pieces[k] == r.value && pieces[k].Pos() == pos
        && forall j :: 0 <= j < k ==> pieces[j].Pos() != pos
  {
    var k := FirstIndexOn(pos, pieces);
    if k < |pieces| then Some(pieces[k]) else None
  }

  /** color_of_piece_on_square: the colour of that first piece, if any. */
  function ColorOnSquare(pos: Square, pieces: seq<Piece>): (r: Option<PieceColor>)
    ensures r.None? <==> forall i :: 0 <= i < |pieces| ==> pieces[i].Pos() != pos
    ensures r.Some? ==>
      exists k :: 0 <= k < |pieces| && pieces[k].Pos() == pos && pieces[k].color == r.value
        && forall j :: 0 <= j < k ==> pieces[j].Pos() != pos
  {
    match PieceOnSquare(pos, pieces)
    case Some(p) => Some(p.color)
    case None => None
  }

  /** On a board that keeps the invariant, the colour reported for a square
      is the colour of whichever piece stands on it. */
  lemma ColorOnSquareOfOccupant(pieces: seq<Piece>, i: int)
    requires NoSharedSquares(pieces)
    requires 0 <= i < |pieces|
    ensures ColorOnSquare(pieces[i].Pos(), pieces) == Some(pieces[i].color)
  {
    var k := FirstIndexOn(pieces[i].Pos(), pieces);
    assert k <= i;
  }

  /** Inserting a piece anywhere in the snapshot never changes what is reported
      for a square other than the inserted piece's own. */
  lemma {:induction false} ColorOnSquareIgnoresOtherSquares(pos: Square, front: seq<Piece>, q: Piece, back: seq<Piece>)
    requires q.Pos() != pos
    ensures ColorOnSquare(pos, front + [q] + back) == ColorOnSquare(pos, front + back)
  {
    FirstIndexIgnoresOtherSquares(pos, front, q, back);
  }

  lemma {:induction false} FirstIndexIgnoresOtherSquares(pos: Square, front: seq<Piece>, q: Piece, back: seq<Piece>)
    requires q.Pos() != pos
    ensures var k, k' := FirstIndexOn(pos, front + [q] + back), FirstIndexOn(pos, front + back);
      (k < |front| + 1 + |back| <==> k' < |front| + |back|)
      && (k < |front| + 1 + |back| ==> (front + [q] + back)[k] == (front + back)[k'])
  {
    if |front| == 0 {
      assert front + [q] + back == [q] + back;
      assert ([q] + back)[1..] == back;
      assert front + back == back;
    } else {
      FirstIndexIgnoresOtherSquares(pos, front[1..], q, back);
      assert (front + [q] + back)[1..] == front[1..] + [q] + back;
      assert (front + back)[1..] == front[1..] + back;
    }
  }
}
