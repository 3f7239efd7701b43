/**
 * The passenger record as the components pass it around. The JavaScript
 * objects are open-ended; here every field any core component reads or
 * writes is present, an absent string field is `""` and an absent flag is
 * `false` (every reader applies `|| ''` or a truthiness test, so the two are
 * indistinguishable to them). `idPax` is the one field compared with `===`,
 * so its absence is kept apart.
 */
module Records {
  import opened Wrappers

  datatype Passenger = Passenger(
    id: string,
    idPax: Option<string>,
    lastName: string,
    firstName: string,
    flightNumber: string,
    departureTime: string,
    goAcc: string,
    ssr1: string,
    status: string,
    airline: string,
    destination: string,
    terminalDepart: string,
    addedAt: string,
    scanTime: string,
    date: string,
    isSkyPriority: bool,
    isAssisted: bool)

  /** A record with every field absent. */
  const Unset: Passenger :=
    Passenger("", None, "", "", "", "", "", "", "", "", "", "", "", "", "", false, false)

  /** `obj[key]` with a possibly `undefined` key reads the property named "undefined". */
  function PropertyKey(key: Option<string>): string { key.GetOr("undefined") }

  /** The `detail` of an `agentStatusChanged` event; absent flags are `false`. */
  datatype AgentEvent = AgentEvent(
    passengerId: string,
    idPax: Option<string>,
    hasAgent: bool,
    isInitial: bool,
    isNew: bool,
    isRemoved: bool)
}
