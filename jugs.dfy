// The three jugs (water pouring) puzzle: jugs of 3, 5 and 8 litres, the two
// smaller ones full at the start, the goal being 4 litres in each of the two
// larger ones. A move pours a non-empty jug into another one until the source
// is empty or the target is full.

module ThreeJugs {

  /** The capacities of the jugs 0, 1 and 2. */
  const Volumes: seq<int> := [3, 5, 8]

  /** The water in the puzzle: the two smaller jugs full. */
  const TotalWater: int := 8

  /** A move: pour jug `from` into jug `to`. */
  datatype TwoPhaseMove = TwoPhaseMove(from: int, to: int)

  /** Both jugs of the move are among 0, 1 and 2. */
  predicate InDomain(m: TwoPhaseMove) {
    0 <= m.from < 3 && 0 <= m.to < 3
  }

  /** Every pair of jug numbers, the move domain the puzzle draws its moves from. */
  function AllMoves(): set<TwoPhaseMove> {
    set i, j | 0 <= i < 3 && 0 <= j < 3 :: TwoPhaseMove(i, j)
  }

  lemma AllMovesInDomain(m: TwoPhaseMove)
    ensures m in AllMoves() <==> InDomain(m)
  {
  }

  /**
   * The static initialiser of the move set: two nested loops adding every
   * (i, j) with i, j in 0..2.
   */
  method InitMoves() returns (moves: set<TwoPhaseMove>)
    ensures forall m :: m in moves <==> InDomain(m)
    ensures moves == AllMoves()
  {
    moves := {};
    var i := 0;
    while i < 3
      invariant 0 <= i <= 3
      invariant forall m :: m in moves <==> 0 <= m.from < i && 0 <= m.to < 3
    {
      var j := 0;
      while j < 3
        invariant 0 <= j <= 3
        invariant forall m :: m in moves <==>
          (0 <= m.from < i && 0 <= m.to < 3) || (m.from == i && 0 <= m.to < j)
      {
        moves := moves + {TwoPhaseMove(i, j)};
        j := j + 1;
      }
      i := i + 1;
    }
    forall m | true
      ensures m in moves <==> m in AllMoves()
    {
      AllMovesInDomain(m);
    }
  }

  /** Contents `c` of three jugs, each between empty and full. */
  predicate WithinCapacity(c: seq<int>) {
    |c| == 3 && forall k :: 0 <= k < 3 ==> 0 <= c[k] <= Volumes[k]
  }

  /** The total amount of water in three jugs. */
  function Water(c: seq<int>): int
    requires |c| == 3
  {
    c[0] + c[1] + c[2]
  }

  function Min(a: int, b: int): int {
    if a <= b then a else b
  }

  /** The amount poured by `m`: all of the source, or as much as the target still takes. */
  function Transfer(c: seq<int>, m: TwoPhaseMove): int
    requires |c| == 3 && InDomain(m)
  {
    Min(c[m.from], Volumes[m.to] - c[m.to])
  }

  /** The contents after pouring: the source loses and then the target gains the transfer. */
  function Poured(c: seq<int>, m: TwoPhaseMove): seq<int>
    requires |c| == 3 && InDomain(m)
  {
    var change := Transfer(c, m);
    var c' := c[m.from := c[m.from] - change];
    c'[m.to := c'[m.to] + change]
  }

  /** The legality rule of a pour on contents `c`: the source has water, the target has room. */
  predicate LegalOn(c: seq<int>, m: TwoPhaseMove)
    requires |c| == 3 && InDomain(m)
  {
    c[m.from] > 0 && c[m.to] < Volumes[m.to]
  }

  lemma PouredConservesWater(c: seq<int>, m: TwoPhaseMove)
    requires |c| == 3 && InDomain(m)
    ensures |Poured(c, m)| == 3
    ensures Water(Poured(c, m)) == Water(c)
  {
  }

  lemma PouredStaysWithinCapacity(c: seq<int>, m: TwoPhaseMove)
    requires WithinCapacity(c) && InDomain(m)
    ensures WithinCapacity(Poured(c, m))
    ensures 0 <= Transfer(c, m)
  {
  }

  /** Only the two jugs of the move can change. */
  lemma PouredTouchesOnlyItsJugs(c: seq<int>, m: TwoPhaseMove, k: int)
    requires |c| == 3 && InDomain(m) && 0 <= k < 3 && k != m.from && k != m.to
    ensures Poured(c, m)[k] == c[k]
  {
  }

  /** Pouring between two different jugs empties the source or fills the target. */
  lemma PouredEmptiesOrFills(c: seq<int>, m: TwoPhaseMove)
    requires |c| == 3 && InDomain(m) && m.from != m.to
    ensures Poured(c, m)[m.from] == 0 || Poured(c, m)[m.to] == Volumes[m.to]
    ensures Poured(c, m)[m.from] == c[m.from] - Transfer(c, m)
    ensures Poured(c, m)[m.to] == c[m.to] + Transfer(c, m)
  {
  }

  /**
   * A pour changes the contents exactly when it is legal and between two
   * different jugs: a self-pour, an empty source or a full target is a no-op.
   */
  lemma PouredChangesIffLegal(c: seq<int>, m: TwoPhaseMove)
    requires WithinCapacity(c) && InDomain(m)
    ensures Poured(c, m) != c <==> m.from != m.to && LegalOn(c, m)
  {
  }

  /** A state of the puzzle: the water in each of the three jugs. */
  class ThreeJugsState {

    var contents: array<int>

    /** The object invariant: three jugs within capacity holding all the water. */
    ghost predicate Valid()
      reads this, contents
    {
      WithinCapacity(contents[..]) && Water(contents[..]) == TotalWater
    }

    /** The initial state [3, 5, 0]. */
    constructor ()
      ensures Valid() && fresh(contents)
      ensures contents[..] == [3, 5, 0]
    {
      contents := new int[] [3, 5, 0];
    }

    /** A state that uses `a` as its contents array, as a shallow copy does. */
    constructor Sharing(a: array<int>)
      ensures contents == a
    {
      contents := a;
    }

    /** The goal test: holds exactly on the contents [0, 4, 4]. */
    function IsSolved(): (r: bool)
      requires Valid()
      reads this, contents
      ensures r <==> contents[..] == [0, 4, 4]
    {
      contents[0] == 0 && contents[1] == 4 && contents[2] == 4
    }

    function IsLegalMove(m: TwoPhaseMove): (r: bool)
      requires Valid() && InDomain(m)
      reads this, contents
      ensures r <==> LegalOn(contents[..], m)
    {
      contents[m.from] > 0 && contents[m.to] < Volumes[m.to]
    }

    function IsLegalToMoveFrom(from: int): (r: bool)
      requires Valid() && 0 <= from < 3
      reads this, contents
      ensures r <==> contents[..][from] > 0
    {
      contents[from] > 0
    }

    /** Every legal move starts from a jug from which it is legal to move. */
    lemma LegalMoveIsLegalFrom(m: TwoPhaseMove)
      requires Valid() && InDomain(m) && IsLegalMove(m)
      ensures IsLegalToMoveFrom(m.from)
    {
    }

    /**
     * It is legal to move from a jug exactly when it can be poured into one
     * of the other jugs: with all 8 litres in the jugs, two jugs other than a
     * non-empty one are never both full.
     */
    lemma LegalFromIffSomeTarget(from: int)
      requires Valid() && 0 <= from < 3
      ensures IsLegalToMoveFrom(from) <==>
        exists to :: 0 <= to < 3 && to != from && IsLegalMove(TwoPhaseMove(from, to))
    {
      if IsLegalToMoveFrom(from) {
        var a, b := (from + 1) % 3, (from + 2) % 3;
        if contents[a] < Volumes[a] {
          assert IsLegalMove(TwoPhaseMove(from, a));
        } else {
          assert contents[b] < Volumes[b];
          assert IsLegalMove(TwoPhaseMove(from, b));
        }
      }
    }

    /** Pours jug `m.from` into jug `m.to`, whether or not the move is legal. */
    method MakeMove(m: TwoPhaseMove)
      requires Valid() && InDomain(m)
      modifies contents
      ensures Valid()
      ensures contents[..] == Poured(old(contents[..]), m)
    {
      PouredStaysWithinCapacity(contents[..], m);
      PouredConservesWater(contents[..], m);
      var change := Min(contents[m.from], Volumes[m.to] - contents[m.to]);
      contents[m.from] := contents[m.from] - change;
      contents[m.to] := contents[m.to] + change;
    }

    /** The legal moves: every move of the domain whose pour is legal (in no particular order). */
    method GetLegalMoves() returns (moves: set<TwoPhaseMove>)
      requires Valid()
      ensures forall m :: m in moves <==> InDomain(m) && IsLegalMove(m)
    {
      moves := {};
      var rest := AllMoves();
      while rest != {}
        invariant rest <= AllMoves()
        invariant forall m :: m in moves <==> m in AllMoves() - rest && IsLegalMove(m)
        decreases rest
      {
        var m :| m in rest;
        AllMovesInDomain(m);
        if IsLegalMove(m) {
          moves := moves + {m};
        }
        rest := rest - {m};
      }
      forall m | true
        ensures m in moves <==> InDomain(m) && IsLegalMove(m)
      {
        AllMovesInDomain(m);
      }
    }

    /**
     * The copy keeps the array this state had, and this state gets a fresh
     * array with the same contents, so the two no longer share an array.
     */
    method Clone() returns (copy: ThreeJugsState)
      requires Valid()
      modifies this
      ensures fresh(copy) && copy.contents == old(contents) && copy.Valid()
      ensures fresh(contents) && Valid() && contents[..] == copy.contents[..]
    {
      copy := new ThreeJugsState.Sharing(contents);
      contents := new int[] [contents[0], contents[1], contents[2]];
    }
  }

  /** What replaying a sequence of moves leads to: final contents, or a move that was not legal. */
  datatype Replayed = Reached(contents: seq<int>) | IllegalMove

  /** The contents after replaying `moves` from `c`, each of which must be legal. */
  function Replay(c: seq<int>, moves: seq<TwoPhaseMove>): Replayed
    requires WithinCapacity(c)
    decreases |moves|
  {
    if moves == [] then Reached(c)
    else if !InDomain(moves[0]) || !LegalOn(c, moves[0]) then IllegalMove
    else
      PouredStaysWithinCapacity(c, moves[0]);
      Replay(Poured(c, moves[0]), moves[1..])
  }

  /** The puzzle is solvable: seven legal pours lead from [3, 5, 0] to [0, 4, 4]. */
  lemma SolvedInSevenMoves()
    ensures Replay([3, 5, 0], [TwoPhaseMove(0, 2), TwoPhaseMove(1, 0), TwoPhaseMove(0, 2),
                               TwoPhaseMove(1, 0), TwoPhaseMove(2, 1), TwoPhaseMove(1, 0),
                               TwoPhaseMove(0, 2)]) == Reached([0, 4, 4])
  {
  }
}
