/** The movement rules of each piece stated as displacements and line
    geometry, independently of how is_move_valid computes them, and the
    proofs that is_move_valid decides exactly these rules. */
module Rules {
  import opened Pieces
  import opened Path
  import opened Moves

  /** Displacement from the piece's square to the target square. */
  function Delta(p: Piece, target: Square): (d: (int, int))
  {
    (target.0 - p.x, target.1 - p.y)
  }

  const KingSteps: set<(int, int)> :=
    {(-1, -1), (-1, 0), (-1, 1), (0, -1), (0, 1), (1, -1), (1, 0), (1, 1)}

  const KnightJumps: set<(int, int)> :=
    {(-2, -1), (-2, 1), (-1, -2), (-1, 2), (1, -2), (1, 2), (2, -1), (2, 1)}

  predicate Orthogonal(d: (int, int)) { d.0 == 0 || d.1 == 0 }

  predicate Diagonal(d: (int, int)) { d.0 == d.1 || d.0 == -d.1 }

  /** The file the game's pawns of each colour start on: 1 for White, 6 for Black. */
  predicate OnStartingFile(p: Piece)
  {
    if p.color == White then p.x == 1 else p.x == 6
  }

  /** Pawn moves: a step forward; a diagonal step forward onto an opposing
      piece; from the home file, two steps forward when the square passed
      over is empty. */
  predicate PawnLegal(p: Piece, target: Square, pieces: seq<Piece>)
  {
    var f := Forward(p.color);
    var d := Delta(p, target);
    || d == (f, 0)
    || ((d == (f, 1) || d == (f, -1)) && ColorOnSquare(target, pieces) == Some(Opponent(p.color)))
    || (OnStartingFile(p) && d == (2 * f, 0) && PieceOnSquare((p.x + f, p.y), pieces).None?)
  }

  /** The rule set the game applies: never onto a friendly piece, never a
      null move, then the shape (and for sliders the clear path) of the piece. */
  predicate Legal(p: Piece, target: Square, pieces: seq<Piece>)
  {
    var d := Delta(p, target);
    && ColorOnSquare(target, pieces) != Some(p.color)
    && d != (0, 0)
    && match p.pieceType
       case King => d in KingSteps
       case Knight => d in KnightJumps
       case Rook => Orthogonal(d) && PathClear(p.Pos(), target, pieces)
       case Bishop => Diagonal(d) && PathClear(p.Pos(), target, pieces)
       case Queen => (Orthogonal(d) || Diagonal(d)) && PathClear(p.Pos(), target, pieces)
       case Pawn => PawnLegal(p, target, pieces)
  }

  /** For a pawn's two-square move the only square passed over is the one
      directly in front of it. */
  lemma PathEmptyForDoubleStep(p: Piece, target: Square, pieces: seq<Piece>)
    requires Delta(p, target) == (2 * Forward(p.color), 0)
    ensures IsPathEmpty(p.Pos(), target, pieces) <==>
      PieceOnSquare((p.x + Forward(p.color), p.y), pieces).None?
  {
    PathEmptyIffClear(p.Pos(), target, pieces);
    var s := (p.x + Forward(p.color), p.y);
    forall i | 0 <= i < |pieces|
      ensures StrictlyBetween(p.Pos(), target, pieces[i].Pos()) <==> pieces[i].Pos() == s
    {
    }
  }

  lemma PawnMoveValidIffLegal(p: Piece, target: Square, pieces: seq<Piece>)
    requires OnBoard(p.Pos()) && OnBoard(target)
    ensures PawnMoveValid(p, target, pieces) <==> PawnLegal(p, target, pieces)
  {
    if Delta(p, target) == (2 * Forward(p.color), 0) {
      PathEmptyForDoubleStep(p, target, pieces);
    }
  }

  /** is_move_valid decides exactly the rule set `Legal`. */
  lemma MoveValidIffLegal(p: Piece, target: Square, pieces: seq<Piece>)
    requires OnBoard(p.Pos()) && OnBoard(target)
    ensures IsMoveValid(p, target, pieces) <==> Legal(p, target, pieces)
  {
    match p.pieceType
    case Pawn => PawnMoveValidIffLegal(p, target, pieces);
    case Rook => PathEmptyIffClear(p.Pos(), target, pieces);
    case Bishop => PathEmptyIffClear(p.Pos(), target, pieces);
    case Queen => PathEmptyIffClear(p.Pos(), target, pieces);
    case King =>
    case Knight =>
  }

  /** Friendly fire: a target whose reported occupant has the mover's colour
      is refused, whatever the piece. */
  lemma FriendlyFireRejected(p: Piece, target: Square, pieces: seq<Piece>)
    requires OnBoard(p.Pos()) && OnBoard(target)
    requires ColorOnSquare(target, pieces) == Some(p.color)
    ensures !IsMoveValid(p, target, pieces)
  {
  }

  /** On a board where no two pieces share a square, any piece of the mover's
      colour standing on the target makes the move invalid. */
  lemma FriendlyOccupantRejected(p: Piece, target: Square, pieces: seq<Piece>, i: int)
    requires OnBoard(p.Pos()) && OnBoard(target)
    requires NoSharedSquares(pieces)
    requires 0 <= i < |pieces| && pieces[i].Pos() == target && pieces[i].color == p.color
    ensures !IsMoveValid(p, target, pieces)
  {
    ColorOnSquareOfOccupant(pieces, i);
  }

  /** No null move: staying on the piece's own square is never valid. */
  lemma NullMoveRejected(p: Piece, pieces: seq<Piece>)
    requires OnBoard(p.Pos())
    ensures !IsMoveValid(p, p.Pos(), pieces)
  {
  }

  /** King: exactly the eight neighbouring squares, unless friendly-occupied. */
  lemma KingMoves(p: Piece, target: Square, pieces: seq<Piece>)
    requires OnBoard(p.Pos()) && OnBoard(target)
    requires p.pieceType == King
    ensures IsMoveValid(p, target, pieces) <==>
      ColorOnSquare(target, pieces) != Some(p.color) && Delta(p, target) in KingSteps
  {
    MoveValidIffLegal(p, target, pieces);
  }

  /** Knight: exactly the eight (2,1)/(1,2) jumps, unless friendly-occupied. */
  lemma KnightMoves(p: Piece, target: Square, pieces: seq<Piece>)
    requires OnBoard(p.Pos()) && OnBoard(target)
    requires p.pieceType == Knight
    ensures IsMoveValid(p, target, pieces) <==>
      ColorOnSquare(target, pieces) != Some(p.color) && Delta(p, target) in KnightJumps
  {
    MoveValidIffLegal(p, target, pieces);
  }

  /** A knight jumps: adding a piece on any square other than the target, at
      any place in the snapshot, never changes whether its move is valid. */
  lemma KnightIgnoresOtherSquares(p: Piece, target: Square, front: seq<Piece>, q: Piece, back: seq<Piece>)
    requires OnBoard(p.Pos()) && OnBoard(target)
    requires p.pieceType == Knight
    requires q.Pos() != target
    ensures IsMoveValid(p, target, front + [q] + back) == IsMoveValid(p, target, front + back)
  {
    ColorOnSquareIgnoresOtherSquares(target, front, q, back);
  }

  /** Rook, bishop and queen: any piece of either colour strictly between the
      two squares blocks the move. */
  lemma SliderBlocked(p: Piece, target: Square, pieces: seq<Piece>, i: int)
    requires OnBoard(p.Pos()) && OnBoard(target)
    requires p.pieceType == Rook || p.pieceType == Bishop || p.pieceType == Queen
    requires 0 <= i < |pieces| && StrictlyBetween(p.Pos(), target, pieces[i].Pos())
    ensures !IsMoveValid(p, target, pieces)
  {
    MoveValidIffLegal(p, target, pieces);
  }

  lemma RookMoves(p: Piece, target: Square, pieces: seq<Piece>)
    requires OnBoard(p.Pos()) && OnBoard(target)
    requires p.pieceType == Rook
    ensures IsMoveValid(p, target, pieces) <==>
      && ColorOnSquare(target, pieces) != Some(p.color)
      && target != p.Pos()
      && Orthogonal(Delta(p, target))
      && PathClear(p.Pos(), target, pieces)
  {
    MoveValidIffLegal(p, target, pieces);
  }

  lemma BishopMoves(p: Piece, target: Square, pieces: seq<Piece>)
    requires OnBoard(p.Pos()) && OnBoard(target)
    requires p.pieceType == Bishop
    ensures IsMoveValid(p, target, pieces) <==>
      && ColorOnSquare(target, pieces) != Some(p.color)
      && target != p.Pos()
      && Diagonal(Delta(p, target))
      && PathClear(p.Pos(), target, pieces)
  {
    MoveValidIffLegal(p, target, pieces);
  }

  lemma QueenMoves(p: Piece, target: Square, pieces: seq<Piece>)
    requires OnBoard(p.Pos()) && OnBoard(target)
    requires p.pieceType == Queen
    ensures IsMoveValid(p, target, pieces) <==>
      && ColorOnSquare(target, pieces) != Some(p.color)
      && target != p.Pos()
      && (Orthogonal(Delta(p, target)) || Diagonal(Delta(p, target)))
      && PathClear(p.Pos(), target, pieces)
  {
    MoveValidIffLegal(p, target, pieces);
  }

  /** Every accepted pawn move goes forward for its colour: White pawns to a
      larger x, Black pawns to a smaller x, by one or two files. */
  lemma PawnMovesForward(p: Piece, target: Square, pieces: seq<Piece>)
    requires OnBoard(p.Pos()) && OnBoard(target)
    requires p.pieceType == Pawn && IsMoveValid(p, target, pieces)
    ensures p.color == White ==> p.x < target.0 <= p.x + 2
    ensures p.color == Black ==> p.x - 2 <= target.0 < p.x
  {
    MoveValidIffLegal(p, target, pieces);
  }

  /** A one-step diagonal-forward pawn move is valid exactly when an opposing
      piece is reported on the target. */
  lemma PawnDiagonalStep(p: Piece, target: Square, pieces: seq<Piece>)
    requires OnBoard(p.Pos()) && OnBoard(target)
    requires p.pieceType == Pawn
    requires Delta(p, target) == (Forward(p.color), 1) || Delta(p, target) == (Forward(p.color), -1)
    ensures IsMoveValid(p, target, pieces) <==> ColorOnSquare(target, pieces) == Some(Opponent(p.color))
  {
    MoveValidIffLegal(p, target, pieces);
  }

  /** A one-step straight pawn move is valid whenever the target holds no
      friendly piece; an opposing piece there does not stop it. */
  lemma PawnSingleStep(p: Piece, target: Square, pieces: seq<Piece>)
    requires OnBoard(p.Pos()) && OnBoard(target)
    requires p.pieceType == Pawn
    requires Delta(p, target) == (Forward(p.color), 0)
    ensures IsMoveValid(p, target, pieces) <==> ColorOnSquare(target, pieces) != Some(p.color)
  {
    MoveValidIffLegal(p, target, pieces);
  }

  /** A two-step straight pawn move is valid exactly from the home file, over
      an empty square, onto a square with no friendly piece. */
  lemma PawnDoubleStep(p: Piece, target: Square, pieces: seq<Piece>)
    requires OnBoard(p.Pos()) && OnBoard(target)
    requires p.pieceType == Pawn
    requires Delta(p, target) == (2 * Forward(p.color), 0)
    ensures IsMoveValid(p, target, pieces) <==>
      && OnStartingFile(p)
      && PieceOnSquare((p.x + Forward(p.color), p.y), pieces).None?
      && ColorOnSquare(target, pieces) != Some(p.color)
  {
    MoveValidIffLegal(p, target, pieces);
  }
}
