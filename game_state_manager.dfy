/** The mode selector: which kind of game the session is running. */
module GameStates {

  datatype GameState = StartMenu | AI | Online

  class GameStateManager {
    var CurrentState: GameState

    /** A new manager starts at the menu. */
    constructor ()
      ensures CurrentState == StartMenu
    {
      CurrentState := StartMenu;
    }

    /** Switches the mode; the manager holds nothing else that could change. */
    method SetState(newState: GameState)
      modifies this
      ensures CurrentState == newState
    {
      CurrentState := newState;
    }

    /** The networked session decides the turn and scores shown. */
    predicate IsOnline()
      reads this
    {
      CurrentState == Online
    }

    /** The local session against the computer opponent is running. */
    predicate IsAI()
      reads this
    {
      CurrentState == AI
    }
  }

  /** At most one mode is active, and at the menu neither is. */
  lemma ModesExclusive(m: GameStateManager)
    ensures !(m.IsOnline() && m.IsAI())
    ensures m.CurrentState == StartMenu ==> !m.IsOnline() && !m.IsAI()
    ensures m.IsOnline() || m.IsAI() || m.CurrentState == StartMenu
  {
  }
}
