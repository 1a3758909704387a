// The players and game statuses shared by the two-player games, and the
// Result type used where the Java code throws.

module Game {

  /** The two players of a two-player game; the one to move alternates. */
  datatype Player = Player1 | Player2 {

    /** The other player. */
    function Opponent(): (r: Player)
      ensures r != this
    {
      if this == Player1 then Player2 else Player1
    }
  }

  /** Taking the opponent twice gives back the player: turns alternate. */
  lemma OpponentTwice(p: Player)
    ensures p.Opponent().Opponent() == p
  {
  }

  /** The outcome of a game at some moment. */
  datatype Status = InProgress | Player1Wins | Player2Wins

  /** The status saying that `p` has won. */
  function WinFor(p: Player): (s: Status)
    ensures s != InProgress
    ensures s == Player1Wins <==> p == Player1
  {
    match p
    case Player1 => Player1Wins
    case Player2 => Player2Wins
  }

  /**
   * The status reported by both two-player games: in progress while the game
   * is not over, otherwise a win for whoever made the last move, that is the
   * opponent of the player who would move next.
   */
  function StatusOf(gameOver: bool, next: Player): (s: Status)
    ensures s == InProgress <==> !gameOver
    ensures gameOver ==> s == WinFor(next.Opponent())
  {
    if !gameOver then InProgress
    else if next == Player2 then Player1Wins
    else Player2Wins
  }

  /** A value, or the error the Java code signals with an exception. */
  datatype Result<T, E> = Ok(value: T) | Err(error: E)
}
