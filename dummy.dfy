// The dummy coin-sliding game: a 5 x 5 board with a coin on each corner;
// players alternately move a coin to an empty 8-adjacent square, and the
// player who moves a coin to the centre square wins.

module Dummy {
  import opened Game

  /** The coordinates of a square of the board. */
  datatype Position = Position(row: int, col: int)

  /** The number of rows and of columns of the board. */
  const BoardSize: int := 5

  /** The centre square, whose occupation ends the game. */
  const Centre: Position := Position(BoardSize / 2, BoardSize / 2)

  function Abs(x: int): int {
    if x < 0 then -x else x
  }

  function Max(a: int, b: int): int {
    if a < b then b else a
  }

  /** A square of the board: at most two rows and two columns away from the centre. */
  function IsOnBoardAt(row: int, col: int): (r: bool)
    ensures r <==> Max(Abs(row - Centre.row), Abs(col - Centre.col)) <= BoardSize / 2
  {
    0 <= row && row < BoardSize && 0 <= col && col < BoardSize
  }

  /** A position on the board: it has a cell in the 5 x 5 array, the centre's 2-neighbourhood. */
  function IsOnBoard(p: Position): (r: bool)
    ensures r <==> Max(Abs(p.row - Centre.row), Abs(p.col - Centre.col)) <= BoardSize / 2
  {
    IsOnBoardAt(p.row, p.col)
  }

  predicate IsCorner(p: Position) {
    (p.row == 0 || p.row == BoardSize - 1) && (p.col == 0 || p.col == BoardSize - 1)
  }

  /** The four corner squares, where the coins start. */
  function Corners(): set<Position> {
    {Position(0, 0), Position(0, BoardSize - 1), Position(BoardSize - 1, 0),
     Position(BoardSize - 1, BoardSize - 1)}
  }

  /**
   * A king move: the squares differ by one in a row, one in a column, or one
   * in each; that is, they are at Chebyshev distance 1.
   */
  function IsKingMove(from: Position, to: Position): (r: bool)
    ensures r <==> from != to && Max(Abs(from.row - to.row), Abs(from.col - to.col)) == 1
  {
    var dx := Abs(from.row - to.row);
    var dy := Abs(from.col - to.col);
    KingDistance(dx, dy);
    dx + dy == 1 || dx * dy == 1
  }

  /** The test `dx + dy == 1 || dx * dy == 1` on the absolute differences is Chebyshev distance 1. */
  lemma KingDistance(dx: int, dy: int)
    requires dx >= 0 && dy >= 0
    ensures dx + dy == 1 || dx * dy == 1 <==> (dx != 0 || dy != 0) && Max(dx, dy) == 1
  {
  }

  /** The coins left unchanged except that the one on `from` went to `to`. */
  function Moved(coins: set<Position>, from: Position, to: Position): set<Position> {
    coins - {from} + {to}
  }

  /** Moving a coin to an empty square keeps the number of coins. */
  lemma MovedKeepsCoinCount(coins: set<Position>, from: Position, to: Position)
    requires from in coins && to !in coins
    ensures |Moved(coins, from, to)| == |coins|
  {
  }

  /** There are four corners, so the game starts with four coins. */
  lemma CornerCount()
    ensures |Corners()| == 4
  {
  }

  /** A state of the game: the board and the player to move. */
  class DummyState {

    var board: array2<bool>
    var player: Player

    ghost predicate Valid()
      reads this
    {
      board.Length0 == BoardSize && board.Length1 == BoardSize
    }

    /** The squares holding a coin. */
    ghost function Coins(): set<Position>
      requires Valid()
      reads this, board
    {
      set i, j | 0 <= i < BoardSize && 0 <= j < BoardSize && board[i, j] :: Position(i, j)
    }

    /** A square holds a coin exactly when it is on the board and its cell is set. */
    lemma CoinsAt(p: Position)
      requires Valid()
      ensures p in Coins() <==> IsOnBoard(p) && board[p.row, p.col]
    {
    }

    /** The initial state: a coin on each corner, the first player to move. */
    constructor ()
      ensures Valid() && fresh(board)
      ensures Coins() == Corners()
      ensures player == Player1
    {
      board := new bool[BoardSize, BoardSize]((i, j) => false);
      player := Player1;
      new;
      board[0, 0] := true;
      board[0, BoardSize - 1] := true;
      board[BoardSize - 1, 0] := true;
      board[BoardSize - 1, BoardSize - 1] := true;
      forall p | true
        ensures p in Coins() <==> p in Corners()
      {
        CoinsAt(p);
      }
    }

    /** The player to move, who is the loser once the game is over. */
    function GetNextPlayer(): (r: Player)
      requires Valid()
      reads this, board
      ensures IsGameOver() ==> GetStatus() == WinFor(r.Opponent()) && GetStatus() != WinFor(r)
    {
      player
    }

    /** The game is over once the centre square holds a coin. */
    function IsGameOver(): (r: bool)
      requires Valid()
      reads this, board
      ensures r <==> Centre in Coins()
    {
      CoinsAt(Centre);
      board[BoardSize / 2, BoardSize / 2]
    }

    /** In progress until the centre is taken; then a win for whoever moved there. */
    function GetStatus(): (s: Status)
      requires Valid()
      reads this, board
      ensures s == InProgress <==> Centre !in Coins()
      ensures Centre in Coins() ==> s == WinFor(player.Opponent())
    {
      StatusOf(IsGameOver(), player)
    }

    function IsEmpty(p: Position): (r: bool)
      requires Valid() && IsOnBoard(p)
      reads this, board
      ensures r <==> p !in Coins()
    {
      CoinsAt(p);
      !board[p.row, p.col]
    }

    /** `q` is an empty on-board square next to `p`. */
    ghost predicate IsEmptyNeighbor(p: Position, q: Position)
      requires Valid()
      reads this, board
    {
      IsKingMove(p, q) && IsOnBoard(q) && q !in Coins()
    }

    /** Scans the 3 x 3 block around `p`, skipping `p`, for an empty square of the board. */
    method HasEmptyNeighbor(p: Position) returns (r: bool)
      requires Valid()
      ensures r <==> exists q :: IsEmptyNeighbor(p, q)
    {
      var i := p.row - 1;
      while i <= p.row + 1
        invariant p.row - 1 <= i <= p.row + 2
        invariant forall q: Position :: IsEmptyNeighbor(p, q) ==> i <= q.row
      {
        var j := p.col - 1;
        while j <= p.col + 1
          invariant p.col - 1 <= j <= p.col + 2
          invariant forall q: Position :: IsEmptyNeighbor(p, q) ==> i < q.row || (i == q.row && j <= q.col)
        {
          if i == p.row && j == p.col {
            j := j + 1;
            continue;
          }
          CoinsAt(Position(i, j));
          if IsOnBoardAt(i, j) && !board[i, j] {
            assert IsEmptyNeighbor(p, Position(i, j));
            return true;
          }
          j := j + 1;
        }
        i := i + 1;
      }
      return false;
    }

    /** A coin may leave `from` when it is on the board, occupied, and next to an empty square. */
    method IsLegalToMoveFrom(from: Position) returns (r: bool)
      requires Valid()
      ensures r <==> IsOnBoard(from) && from in Coins() && exists q :: IsEmptyNeighbor(from, q)
    {
      r := false;
      if IsOnBoard(from) && !IsEmpty(from) {
        r := HasEmptyNeighbor(from);
      }
    }

    /** A legal move takes a coin to an empty on-board square a king move away. */
    function IsLegalMove(from: Position, to: Position): (r: bool)
      requires Valid()
      reads this, board
      ensures r <==> from in Coins() && to !in Coins() && IsOnBoard(to) &&
                     Max(Abs(from.row - to.row), Abs(from.col - to.col)) == 1
      ensures r ==> from != to
    {
      CoinsAt(from);
      IsOnBoard(from) && !IsEmpty(from) && IsOnBoard(to) && IsEmpty(to) && IsKingMove(from, to)
    }

    /** The source of every legal move is a square from which it is legal to move. */
    lemma LegalMoveStartsLegally(from: Position, to: Position)
      requires Valid() && IsLegalMove(from, to)
      ensures IsOnBoard(from) && from in Coins() && exists q :: IsEmptyNeighbor(from, q)
    {
      assert IsEmptyNeighbor(from, to);
    }

    /**
     * Moves the coin from `from` to `to` and passes the turn; legality is the
     * caller's concern, and every other square keeps its content.
     */
    method MakeMove(from: Position, to: Position)
      requires Valid() && IsOnBoard(from) && IsOnBoard(to)
      modifies this, board
      ensures Valid() && board == old(board)
      ensures Coins() == Moved(old(Coins()), from, to)
      ensures player == old(player).Opponent()
      ensures old(IsLegalMove(from, to)) ==> |Coins()| == |old(Coins())|
      ensures Centre in Coins() ==> GetStatus() == WinFor(old(player))
    {
      ghost var before := Coins();
      ghost var legal := IsLegalMove(from, to);
      forall q | true
        ensures q in before <==> IsOnBoard(q) && board[q.row, q.col]
      {
        CoinsAt(q);
      }
      board[from.row, from.col] := false;
      board[to.row, to.col] := true;
      OpponentTwice(player);
      player := player.Opponent();
      forall q | true
        ensures q in Coins() <==> q in Moved(before, from, to)
      {
        CoinsAt(q);
      }
      if legal {
        MovedKeepsCoinCount(before, from, to);
      }
    }
  }
}
