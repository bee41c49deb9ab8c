/** Pawns capture straight ahead: the straight pawn moves only refuse a
    friendly piece on the target, so a pawn may step, or double-step, onto an
    opposing piece in front of it. This module exhibits that behaviour of
    is_move_valid and defines the rule with the evidently intended empty-target
    requirement. */
module Findings {
  import opened Pieces
  import opened Moves
  import opened Rules

  /** As written: a White pawn on (1, 3) may move onto the Black pawn on (2, 3). */
  lemma PawnCapturesStraightAhead()
    ensures var pawn := Piece(White, Pawn, 1, 3);
      IsMoveValid(pawn, (2, 3), [pawn, Piece(Black, Pawn, 2, 3)])
  {
    var pawn := Piece(White, Pawn, 1, 3);
    PawnSingleStep(pawn, (2, 3), [pawn, Piece(Black, Pawn, 2, 3)]);
  }

  /** As written: a Black pawn on (6, 0) may move two squares onto the White
      rook on (4, 0). */
  lemma PawnDoubleStepCapturesStraightAhead()
    ensures var pawn := Piece(Black, Pawn, 6, 0);
      IsMoveValid(pawn, (4, 0), [pawn, Piece(White, Rook, 4, 0)])
  {
    var pawn := Piece(Black, Pawn, 6, 0);
    PawnDoubleStep(pawn, (4, 0), [pawn, Piece(White, Rook, 4, 0)]);
  }

  /** The intended rule: as is_move_valid, except that a pawn moving along its
      row needs an empty target square. */
  function IsMoveValidIntended(p: Piece, target: Square, pieces: seq<Piece>): (r: bool)
    requires OnBoard(p.Pos()) && OnBoard(target)
  {
    && IsMoveValid(p, target, pieces)
    && (p.pieceType == Pawn && target.1 == p.y ==> PieceOnSquare(target, pieces).None?)
  }

  /** Intended: a one-step straight pawn move is valid exactly onto an empty square. */
  lemma IntendedPawnSingleStep(p: Piece, target: Square, pieces: seq<Piece>)
    requires OnBoard(p.Pos()) && OnBoard(target)
    requires p.pieceType == Pawn
    requires Delta(p, target) == (Forward(p.color), 0)
    ensures IsMoveValidIntended(p, target, pieces) <==> PieceOnSquare(target, pieces).None?
  {
    PawnSingleStep(p, target, pieces);
  }

  /** Intended: a two-step pawn move is valid exactly from the home file with
      both the square passed over and the target empty. */
  lemma IntendedPawnDoubleStep(p: Piece, target: Square, pieces: seq<Piece>)
    requires OnBoard(p.Pos()) && OnBoard(target)
    requires p.pieceType == Pawn
    requires Delta(p, target) == (2 * Forward(p.color), 0)
    ensures IsMoveValidIntended(p, target, pieces) <==>
      && OnStartingFile(p)
      && PieceOnSquare((p.x + Forward(p.color), p.y), pieces).None?
      && PieceOnSquare(target, pieces).None?
  {
    PawnDoubleStep(p, target, pieces);
  }
}
