/**
  `Expiration`: three absolute expiry instants (seconds) that are computed
  ONCE, from the clock reading at the moment the object is first loaded, and
  never recomputed afterwards. The engine therefore receives one `Deadlines`
  value at construction and uses the same instants for every pairing and
  session it creates.
 */
module Expiration {
  import opened Protocol

  datatype Deadlines = Deadlines(inactivePairing: int, activePairing: int, activeSession: int)

  /** The deadlines as initialised when the clock read `loadTime`. */
  function LoadedAt(loadTime: int): (d: Deadlines)
    ensures d.inactivePairing == loadTime + FIVE_MINUTES_IN_SECONDS
    ensures d.activePairing == loadTime + MONTH_IN_SECONDS
    ensures d.activeSession == loadTime + WEEK_IN_SECONDS
    // an inactive pairing always lapses before a session, and a session before an active pairing
    ensures loadTime < d.inactivePairing < d.activeSession < d.activePairing
  {
    Deadlines(loadTime + FIVE_MINUTES_IN_SECONDS, loadTime + MONTH_IN_SECONDS, loadTime + WEEK_IN_SECONDS)
  }
}
