/** The server-declared phase of a game and the mapping from its wire name. */
module GameStates {
  import opened Wrappers

  /** The GameState enum, in declaration order. */
  datatype GameState = Stopped | Placement | Removal | FirstRemoval | Movement

  /** The name the server uses for each state. */
  function Name(g: GameState): string {
    match g
    case Stopped => "STOPPED"
    case Placement => "PLACEMENT"
    case Removal => "REMOVAL"
    case FirstRemoval => "FIRST_REMOVAL"
    case Movement => "MOVEMENT"
  }

  /** The state a name denotes, if it names one. */
  function Parse(s: string): (r: Option<GameState>)
    ensures r.Some? ==> Name(r.value) == s
    ensures r.None? ==> forall g :: Name(g) != s
  {
    if s == "STOPPED" then Some(Stopped)
    else if s == "FIRST_REMOVAL" then Some(FirstRemoval)
    else if s == "REMOVAL" then Some(Removal)
    else if s == "PLACEMENT" then Some(Placement)
    else if s == "MOVEMENT" then Some(Movement)
    else None
  }

  /** setState: a known name selects its state; any other string keeps the current one. */
  function StateAfter(current: GameState, s: string): (r: GameState)
    ensures forall g :: Name(g) == s ==> r == g
    ensures (forall g :: Name(g) != s) ==> r == current
  {
    match Parse(s)
    case Some(g) => g
    case None => current
  }

  /** Each state has its own name, and parsing a name gives back its state. */
  lemma ParseName(g: GameState)
    ensures Parse(Name(g)) == Some(g)
    ensures forall h :: Name(h) == Name(g) ==> h == g
  {
  }
}
