/** The two game modes of the engine (GameMode). */
module Modes {
  datatype GameMode = X01 | Cricket

  /** The score a player starts with when no initial score is given:
      501 in X01, 0 in Cricket. */
  function StartScore(mode: GameMode): (s: int)
    ensures mode == X01 ==> s == 501
    ensures mode == Cricket ==> s == 0
  {
    if mode == X01 then 501 else 0
  }
}
