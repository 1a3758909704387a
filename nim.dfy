// The subtraction game, a variant of nim: two players take turns removing
// between 1 and `limit` objects from one pile; whoever takes the last object
// wins.

module Nim {
  import opened Game

  /** Why the game could not be created: a pile or a limit below 1. */
  datatype Error = IllegalArgument

  /** The legality rule: remove at least one object, at most `limit`, and no more than the pile holds. */
  predicate IsLegalRemoval(pile: int, limit: int, n: int) {
    0 < n && n <= limit && n <= pile
  }

  /** A legal removal leaves a pile that is smaller but not negative. */
  lemma LegalRemovalShrinksPile(pile: int, limit: int, n: int)
    requires IsLegalRemoval(pile, limit, n)
    ensures 0 <= pile - n < pile
  {
  }

  /** The legal removals are exactly 1 up to the smaller of the limit and the pile. */
  lemma LegalRemovalRange(pile: int, limit: int, n: int)
    ensures IsLegalRemoval(pile, limit, n) <==> 1 <= n <= (if limit <= pile then limit else pile)
  {
  }

  /** While objects remain, removing one object is legal. */
  lemma RemovingOneIsLegal(pile: int, limit: int)
    requires pile > 0 && limit >= 1
    ensures IsLegalRemoval(pile, limit, 1)
  {
  }

  /** `moves` can be played one after the other from a pile of `pile` objects. */
  predicate IsLegalPlay(pile: int, limit: int, moves: seq<int>)
    decreases |moves|
  {
    moves == [] ||
    (IsLegalRemoval(pile, limit, moves[0]) && IsLegalPlay(pile - moves[0], limit, moves[1..]))
  }

  /** The pile left after playing `moves`. */
  function PileAfter(pile: int, moves: seq<int>): int
    decreases |moves|
  {
    if moves == [] then pile else PileAfter(pile - moves[0], moves[1..])
  }

  /**
   * The game terminates: a sequence of legal moves is no longer than the
   * initial pile, and what it leaves is never negative.
   */
  lemma {:induction false} LegalPlayIsBounded(pile: int, limit: int, moves: seq<int>)
    requires pile >= 0 && IsLegalPlay(pile, limit, moves)
    ensures 0 <= PileAfter(pile, moves) <= pile - |moves|
  {
    if moves != [] {
      LegalRemovalShrinksPile(pile, limit, moves[0]);
      LegalPlayIsBounded(pile - moves[0], limit, moves[1..]);
    }
  }

  /** A state of the game: the pile, the fixed removal limit and the player to move. */
  class NimState {

    var numberOfObjects: int
    const limit: int
    var player: Player

    /** The invariant of every state reached by legal moves. */
    ghost predicate Valid()
      reads this
    {
      numberOfObjects >= 0 && limit >= 1
    }

    /** The initial state; `Create` performs the argument check that guards this constructor. */
    constructor (numberOfObjects: int, limit: int)
      requires numberOfObjects >= 1 && limit >= 1
      ensures Valid()
      ensures this.numberOfObjects == numberOfObjects && this.limit == limit
      ensures player == Player1
    {
      this.numberOfObjects := numberOfObjects;
      this.limit := limit;
      player := Player1;
    }

    /** Creates the initial state, or fails unless both arguments are positive. */
    static method Create(numberOfObjects: int, limit: int) returns (r: Result<NimState, Error>)
      ensures r.Err? <==> numberOfObjects < 1 || limit < 1
      ensures r.Ok? ==>
                fresh(r.value) && r.value.Valid() && r.value.player == Player1 &&
                r.value.numberOfObjects == numberOfObjects && r.value.limit == limit
    {
      if numberOfObjects < 1 || limit < 1 {
        return Err(IllegalArgument);
      }
      var s := new NimState(numberOfObjects, limit);
      return Ok(s);
    }

    function IsLegalMove(n: int): (r: bool)
      reads this
      ensures r ==> 0 <= numberOfObjects - n < numberOfObjects
      ensures r <==> 1 <= n <= (if limit <= numberOfObjects then limit else numberOfObjects)
    {
      LegalRemovalRange(numberOfObjects, limit, n);
      IsLegalRemoval(numberOfObjects, limit, n)
    }

    /** Removes `n` objects and passes the turn; legality is the caller's concern. */
    method MakeMove(n: int)
      modifies this
      ensures numberOfObjects == old(numberOfObjects) - n
      ensures player == old(player).Opponent()
      ensures old(IsLegalMove(n)) && old(Valid()) ==> Valid()
      ensures numberOfObjects == 0 ==> GetStatus() == WinFor(old(player))
    {
      OpponentTwice(player);
      numberOfObjects := numberOfObjects - n;
      player := player.Opponent();
    }

    /** The player to move, who is the loser once the game is over. */
    function GetNextPlayer(): (r: Player)
      reads this
      ensures IsGameOver() ==> GetStatus() == WinFor(r.Opponent()) && GetStatus() != WinFor(r)
    {
      player
    }

    function IsGameOver(): (r: bool)
      reads this
      ensures Valid() ==> (r <==> !IsLegalMove(1))
    {
      numberOfObjects == 0
    }

    /** In progress while objects remain; otherwise a win for whoever took the last object. */
    function GetStatus(): (s: Status)
      reads this
      ensures s == InProgress <==> numberOfObjects != 0
      ensures numberOfObjects == 0 ==> s == WinFor(player.Opponent())
    {
      StatusOf(IsGameOver(), player)
    }
  }
}
