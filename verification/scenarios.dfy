/** The opening layout the game spawns, and worked examples of the rules. */
module Scenarios {
  import opened Pieces
  import opened Moves
  import opened Path
  import opened Rules

  function BackRank(c: PieceColor, x: int): (rank: seq<Piece>)
  {
    [Piece(c, Rook, x, 0), Piece(c, Knight, x, 1), Piece(c, Bishop, x, 2), Piece(c, Queen, x, 3),
     Piece(c, King, x, 4), Piece(c, Bishop, x, 5), Piece(c, Knight, x, 6), Piece(c, Rook, x, 7)]
  }

  function PawnRank(c: PieceColor, x: int): (rank: seq<Piece>)
  {
    seq(8, y => Piece(c, Pawn, x, y))
  }

  /** The 32 pieces in the order the game spawns them: White on files 0 and
      1, Black on files 7 and 6. */
  function StartingPieces(): (pieces: seq<Piece>)
    ensures |pieces| == 32
    ensures forall i :: 0 <= i < |pieces| ==> OnBoard(pieces[i].Pos())
    ensures forall i :: 0 <= i < |pieces| ==> pieces[i].x <= 1 || 6 <= pieces[i].x
  {
    BackRank(White, 0) + PawnRank(White, 1) + BackRank(Black, 7) + PawnRank(Black, 6)
  }

  /** Every pawn of the opening layout stands on the file from which its
      colour may make the two-square move. */
  lemma PawnsStartOnHomeFile(i: int)
    requires 0 <= i < |StartingPieces()| && StartingPieces()[i].pieceType == Pawn
    ensures StartingPieces()[i].x == HomeFile(StartingPieces()[i].color)
    ensures OnStartingFile(StartingPieces()[i])
  {
  }

  lemma StartingPiecesShareNoSquare()
    ensures NoSharedSquares(StartingPieces())
  {
  }

  /** In the opening position every White pawn may advance one or two files. */
  lemma OpeningPawnAdvances(y: int)
    requires 0 <= y < 8
    ensures IsMoveValid(Piece(White, Pawn, 1, y), (2, y), StartingPieces())
    ensures IsMoveValid(Piece(White, Pawn, 1, y), (3, y), StartingPieces())
  {
  }

  /** In the opening position a knight jumps over its own pawns. */
  lemma OpeningKnightJumps()
    ensures IsMoveValid(Piece(White, Knight, 0, 1), (2, 2), StartingPieces())
  {
    KnightMoves(Piece(White, Knight, 0, 1), (2, 2), StartingPieces());
  }

  /** In the opening position a rook is blocked by the pawn in front of it. */
  lemma OpeningRookBlocked()
    ensures !IsMoveValid(Piece(White, Rook, 0, 0), (2, 0), StartingPieces())
  {
    var start := StartingPieces();
    assert start[8] == Piece(White, Pawn, 1, 0);
    SliderBlocked(Piece(White, Rook, 0, 0), (2, 0), start, 8);
  }

  /** A White pawn takes diagonally forward, but not diagonally backward. */
  lemma PawnCaptureScenario()
    ensures var pawn := Piece(White, Pawn, 1, 3);
      IsMoveValid(pawn, (2, 4), [pawn, Piece(Black, Knight, 2, 4)])
    ensures var pawn := Piece(White, Pawn, 3, 3);
      !IsMoveValid(pawn, (2, 4), [pawn, Piece(Black, Knight, 2, 4)])
  {
    var pawn := Piece(White, Pawn, 1, 3);
    var pieces := [pawn, Piece(Black, Knight, 2, 4)];
    assert FirstIndexOn((2, 4), pieces) == 1;
    PawnDiagonalStep(pawn, (2, 4), pieces);
  }

  /** A rook on (0, 0) cannot pass its own pawn on (0, 3) to reach (0, 5). */
  lemma RookBlockedScenario()
    ensures var rook := Piece(White, Rook, 0, 0);
      !IsMoveValid(rook, (0, 5), [rook, Piece(White, Pawn, 0, 3)])
  {
  }
}
