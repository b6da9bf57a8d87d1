/** The turn state machine: whose turn it is in an encounter. */
module Turns {

  datatype Turn = Player | Enemy

  /** The alternation Next performs. */
  function Other(t: Turn): (r: Turn)
    ensures r != t
  {
    if t == Player then Enemy else Player
  }

  /** The turn after n calls of Next from t. */
  function After(t: Turn, n: nat): Turn
  {
    if n == 0 then t else Other(After(t, n - 1))
  }

  lemma NextTwiceIsIdentity(t: Turn)
    ensures Other(Other(t)) == t
  {
  }

  /** From the Player's turn, n calls of Next give the Player's turn iff n is even. */
  lemma {:induction false} PlayerIffEven(n: nat)
    ensures After(Player, n) == Player <==> n % 2 == 0
  {
    if n > 0 {
      PlayerIffEven(n - 1);
    }
  }

  class TurnManager {
    var current: Turn

    constructor ()
      ensures current == Player
    {
      current := Player;
    }

    method Reset(start: Turn := Player)
      modifies this
      ensures current == start
    {
      current := start;
    }

    method Next()
      modifies this
      ensures current == Other(old(current))
    {
      current := if current == Player then Enemy else Player;
    }
  }
}
