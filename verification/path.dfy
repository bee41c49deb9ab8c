/** Path blocking for the sliding pieces: is_between_range and is_path_empty,
    and the geometric meaning they implement. */
module Path {
  import opened Pieces

  function Abs(n: int): (r: nat)
    ensures r == n || r == -n
  {
    if n < 0 then -n else n
  }

  function Min(a: int, b: int): (m: int)
    ensures m <= a && m <= b && (m == a || m == b)
  {
    if a <= b then a else b
  }

  function Max(a: int, b: int): (m: int)
    ensures a <= m && b <= m && (m == a || m == b)
  {
    if a <= b then b else a
  }

  /** is_between_range: `value` lies strictly between `start` and `stop`,
      whichever of the two is the larger. */
  function IsBetweenRange(start: int, stop: int, value: int): (r: bool)
    ensures r <==> Min(start, stop) < value < Max(start, stop)
    ensures r ==> value != start && value != stop
  {
    (value > start && value < stop) || (value > stop && value < start)
  }

  /** The i-th square after `begin` on the diagonal towards `dest`, chosen by
      the four direction cases of the diagonal walk. */
  function DiagonalSquare(begin: Square, dest: Square, i: int): (s: Square)
    ensures Abs(s.0 - begin.0) == Abs(i) && Abs(s.1 - begin.1) == Abs(i)
    ensures 0 < i && begin.0 != dest.0 && begin.1 != dest.1 ==>
      (begin.0 < s.0 <==> begin.0 < dest.0) && (begin.1 < s.1 <==> begin.1 < dest.1)
  {
    if begin.0 < dest.0 && begin.1 < dest.1 then (begin.0 + i, begin.1 + i)
    else if begin.0 < dest.0 && begin.1 > dest.1 then (begin.0 + i, begin.1 - i)
    else if begin.0 > dest.0 && begin.1 < dest.1 then (begin.0 - i, begin.1 + i)
    else (begin.0 - i, begin.1 - i)
  }

  /** The diagonal walk `for i in from..steps`: no piece on any visited square. */
  function DiagonalClear(begin: Square, dest: Square, pieces: seq<Piece>, from: int, steps: int): (r: bool)
    ensures r <==>
      forall t :: from <= t < steps ==> PieceOnSquare(DiagonalSquare(begin, dest, t), pieces).None?
    decreases steps - from
  {
    from >= steps
    || (PieceOnSquare(DiagonalSquare(begin, dest, from), pieces).None?
        && DiagonalClear(begin, dest, pieces, from + 1, steps))
  }

  /** is_path_empty, with its three scans in the order the source runs them:
      the shared column, the shared row, then the diagonal. */
  function IsPathEmpty(begin: Square, dest: Square, pieces: seq<Piece>): (r: bool)
    ensures Abs(begin.0 - dest.0) <= 1 && Abs(begin.1 - dest.1) <= 1 ==> r
    ensures !OnLine(begin, dest) ==> r
  {
    && (begin.0 == dest.0 ==>
          forall i :: 0 <= i < |pieces| ==>
            !(pieces[i].x == begin.0 && IsBetweenRange(begin.1, dest.1, pieces[i].y)))
    && (begin.1 == dest.1 ==>
          forall i :: 0 <= i < |pieces| ==>
            !(pieces[i].y == begin.1 && IsBetweenRange(begin.0, dest.0, pieces[i].x)))
    && (Abs(begin.0 - dest.0) == Abs(begin.1 - dest.1) ==>
          DiagonalClear(begin, dest, pieces, 1, Abs(begin.0 - dest.0)))
  }

  /** Reference geometry: `s` lies strictly inside the segment from `begin` to
      `dest`, which runs along a column, a row or a diagonal. */
  predicate StrictlyBetween(begin: Square, dest: Square, s: Square)
  {
    || (begin.0 == dest.0 && s.0 == begin.0
        && Min(begin.1, dest.1) < s.1 < Max(begin.1, dest.1))
    || (begin.1 == dest.1 && s.1 == begin.1
        && Min(begin.0, dest.0) < s.0 < Max(begin.0, dest.0))
    || (Abs(dest.0 - begin.0) == Abs(dest.1 - begin.1)
        && Min(begin.0, dest.0) < s.0 < Max(begin.0, dest.0)
        && Min(begin.1, dest.1) < s.1 < Max(begin.1, dest.1)
        && Abs(s.0 - begin.0) == Abs(s.1 - begin.1))
  }

  /** Reference: no piece, of either colour, stands strictly between the ends. */
  predicate PathClear(begin: Square, dest: Square, pieces: seq<Piece>)
  {
    forall i :: 0 <= i < |pieces| ==> !StrictlyBetween(begin, dest, pieces[i].Pos())
  }

  /** The two squares share a column, a row or a diagonal. */
  predicate OnLine(begin: Square, dest: Square)
  {
    begin.0 == dest.0 || begin.1 == dest.1 || Abs(begin.0 - dest.0) == Abs(begin.1 - dest.1)
  }

  /** The diagonal squares visited by the walk are the strictly-between ones. */
  lemma DiagonalSquareBetween(begin: Square, dest: Square, t: int)
    requires begin.0 != dest.0 && Abs(begin.0 - dest.0) == Abs(begin.1 - dest.1)
    requires 0 < t < Abs(begin.0 - dest.0)
    ensures StrictlyBetween(begin, dest, DiagonalSquare(begin, dest, t))
  {
  }

  lemma DiagonalBetweenIsVisited(begin: Square, dest: Square, s: Square)
    requires begin.0 != dest.0 && Abs(begin.0 - dest.0) == Abs(begin.1 - dest.1)
    requires StrictlyBetween(begin, dest, s)
    ensures 0 < Abs(s.0 - begin.0) < Abs(begin.0 - dest.0)
    ensures DiagonalSquare(begin, dest, Abs(s.0 - begin.0)) == s
  {
  }

  /** is_path_empty is exactly the reference: no piece strictly between. */
  lemma PathEmptyIffClear(begin: Square, dest: Square, pieces: seq<Piece>)
    ensures IsPathEmpty(begin, dest, pieces) <==> PathClear(begin, dest, pieces)
  {
    var n := Abs(begin.0 - dest.0);
    if IsPathEmpty(begin, dest, pieces) {
      forall i | 0 <= i < |pieces|
        ensures !StrictlyBetween(begin, dest, pieces[i].Pos())
      {
        var s := pieces[i].Pos();
        if StrictlyBetween(begin, dest, s) && begin.0 != dest.0 && begin.1 != dest.1 {
          DiagonalBetweenIsVisited(begin, dest, s);
          assert false;
        }
      }
    }
    if PathClear(begin, dest, pieces) && begin.0 != dest.0 && n == Abs(begin.1 - dest.1) {
      forall t | 1 <= t < n
        ensures PieceOnSquare(DiagonalSquare(begin, dest, t), pieces).None?
      {
        DiagonalSquareBetween(begin, dest, t);
      }
    }
  }
}
