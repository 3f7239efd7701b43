/**
 * One passenger card of the list: the defaults it shows for absent fields, its
 * time tier, and the "agent en route" indicator driven both by its own watch on
 * the agent marker and by the `agentStatusChanged` events the list sends.
 */
module PassengerItem {
  import opened Wrappers
  import opened Text
  import opened TimeText
  import opened Urgency
  import opened Records
  import PassengerList

  datatype SafePassenger = SafePassenger(
    id: string, lastName: string, firstName: string, flightNumber: string, status: string,
    departureTime: string, addedAt: string, isSkyPriority: bool, goAcc: string, idPax: Option<string>)

  /** `safePassenger`: the card's view of a record; `nowText` is the clock reading used for a missing `addedAt`. */
  function SafeView(p: Passenger, nowText: string): (r: SafePassenger)
    ensures r.id == p.id && r.idPax == p.idPax && r.isSkyPriority == p.isSkyPriority
    ensures r.lastName != "" && r.flightNumber != "" && r.status != ""
    ensures (p.lastName != "" ==> r.lastName == p.lastName) && (p.flightNumber != "" ==> r.flightNumber == p.flightNumber)
    ensures p.status != "" ==> r.status == p.status
    ensures p.status == "" && p.ssr1 != "" ==> r.status == p.ssr1
    ensures r.firstName == p.firstName && r.departureTime == p.departureTime && r.goAcc == p.goAcc
    ensures p.lastName == "" ==> r.lastName == "Sans nom"
    ensures p.flightNumber == "" ==> r.flightNumber == "N/A"
    ensures p.status == "" && p.ssr1 == "" ==> r.status == "WCHR"
    ensures p.addedAt != "" ==> r.addedAt == p.addedAt
    ensures p.addedAt == "" ==> r.addedAt == nowText
  {
    SafePassenger(p.id, OrElse(p.lastName, "Sans nom"), p.firstName, OrElse(p.flightNumber, "N/A"),
                  OrElse(p.status, OrElse(p.ssr1, "WCHR")), p.departureTime, OrElse(p.addedAt, nowText),
                  p.isSkyPriority, p.goAcc, p.idPax)
  }

  /** The card's tier, from the time left before today's (or tomorrow's) departure. */
  function CardTier(p: Passenger, now: int): TimeDiff
  {
    DiffData(MinutesLeftRaw(p.departureTime, now))
  }

  /** The border and time colour of the card. */
  function CardColour(p: Passenger, now: int): Colour
  {
    TierColour(MinutesLeftRaw(p.departureTime, now))
  }

  /** A card whose time does not read counts 120 minutes: green, normal, not passed. */
  lemma UnreadableTimeIsGreen(p: Passenger, now: int)
    requires RawDepartureClock(p.departureTime).None?
    ensures CardColour(p, now) == Green && CardTier(p, now).isNormal && !IsPassedRaw(p.departureTime, now)
  {
    TiersPartition(FallbackMinutes);
  }

  /** The card's shown time: the extracted clock, else the raw text, else `"??:??"`. */
  lemma DisplayTimeNeverEmpty(p: Passenger)
    ensures ExtractOrRaw(SafeView(p, "").departureTime) != ""
    ensures p.departureTime == "" ==> ExtractOrRaw(SafeView(p, "").departureTime) == Unknown
  {
  }

  /** `isAgentEnRoute`: the agent marker is not blank. */
  predicate AgentEnRoute(goAcc: string) { Trim(goAcc) != "" }

  lemma AgentEnRouteIffNotBlank(goAcc: string)
    ensures AgentEnRoute(goAcc) <==> !Blank(goAcc)
  {
  }

  // ================================================================ indicator

  /** `prevGoAccRef`, `isNewlyAddedAgent` and `agentEnRouteKey`. */
  datatype Indicator = Indicator(prevGoAcc: string, isNewlyAdded: bool, key: nat)

  /** The watch on `passenger.goAcc`: blank to set raises the flag and bumps the key; set to blank lowers it. */
  function Watch(s: Indicator, current: string): (r: Indicator)
    ensures r.prevGoAcc == current
    ensures Blank(s.prevGoAcc) && !Blank(current) ==> r.isNewlyAdded && r.key == s.key + 1
    ensures !Blank(s.prevGoAcc) && Blank(current) ==> !r.isNewlyAdded && r.key == s.key
    ensures Blank(s.prevGoAcc) == Blank(current) ==> r.isNewlyAdded == s.isNewlyAdded && r.key == s.key
  {
    if Trim(s.prevGoAcc) == "" && Trim(current) != "" then Indicator(current, true, s.key + 1)
    else if Trim(s.prevGoAcc) != "" && Trim(current) == "" then Indicator(current, false, s.key)
    else Indicator(current, s.isNewlyAdded, s.key)
  }

  /** Watching the same marker again changes nothing. */
  lemma WatchIdempotent(s: Indicator, current: string)
    ensures Watch(Watch(s, current), current) == Watch(s, current)
  {
  }

  /** An event concerns the card when either its id or its idPax matches (`===`, so two absent idPax match). */
  predicate Concerns(ev: AgentEvent, id: string, idPax: Option<string>)
  {
    ev.passengerId == id || ev.idPax == idPax
  }

  /** `handleAgentStatusChange`. */
  function Receive(s: Indicator, ev: AgentEvent, id: string, idPax: Option<string>): (r: Indicator)
    ensures r.prevGoAcc == s.prevGoAcc
    ensures !Concerns(ev, id, idPax) ==> r == s
    ensures Concerns(ev, id, idPax) && ev.hasAgent && (ev.isInitial || ev.isNew) ==> r.isNewlyAdded && r.key == s.key + 1
    ensures Concerns(ev, id, idPax) && !(ev.hasAgent && (ev.isInitial || ev.isNew)) && ev.isRemoved ==> r == s.(isNewlyAdded := false)
    ensures Concerns(ev, id, idPax) && !(ev.hasAgent && (ev.isInitial || ev.isNew)) && !ev.isRemoved ==> r == s
    ensures r.key == s.key || r.key == s.key + 1
  {
    if !Concerns(ev, id, idPax) then s
    else if ev.hasAgent && (ev.isInitial || ev.isNew) then s.(isNewlyAdded := true, key := s.key + 1)
    else if ev.isRemoved then s.(isNewlyAdded := false)
    else s
  }

  /** The timer that ends the animation. */
  function Expire(s: Indicator): (r: Indicator)
    ensures !r.isNewlyAdded && r.prevGoAcc == s.prevGoAcc && r.key == s.key
  {
    s.(isNewlyAdded := false)
  }

  /** A refresh that gives a card its first agent makes the card's handler raise the flag. */
  lemma AssignmentEventRaisesFlag(p: Passenger, before: string, after: string, s: Indicator)
    requires before == "" && after != ""
    ensures var r := Receive(s, PassengerList.ChangeEvent(p, before, after), p.id, p.idPax);
      r.isNewlyAdded && r.key == s.key + 1
  {
  }

  /** A refresh that takes the agent away lowers the flag without bumping the key. */
  lemma RemovalEventLowersFlag(p: Passenger, before: string, after: string, s: Indicator)
    requires before != "" && after == ""
    ensures var r := Receive(s, PassengerList.ChangeEvent(p, before, after), p.id, p.idPax);
      !r.isNewlyAdded && r.key == s.key
  {
  }

  /** A refresh that replaces one agent by another leaves the card as it is. */
  lemma AgentSwapEventIgnored(p: Passenger, before: string, after: string, s: Indicator)
    requires before != "" && after != "" && before != after
    ensures Receive(s, PassengerList.ChangeEvent(p, before, after), p.id, p.idPax) == s
  {
  }

  /** The initial event of a selected passenger raises the flag on its new card. */
  lemma SelectEventRaisesFlag(ps: seq<Passenger>, chosen: Passenger, freshId: string, addedAt: string, s: Indicator)
    requires !PassengerList.HasIdPax(ps, chosen.idPax) && !Blank(chosen.goAcc)
    ensures var sel := PassengerList.HandlePassengerSelect(ps, Some(chosen), freshId, addedAt);
      sel.event.Some? && Receive(s, sel.event.value, freshId, chosen.idPax).isNewlyAdded
  {
  }

  /** The state of one mounted card. */
  class AgentIndicator {
    var prevGoAcc: string
    var isNewlyAddedAgent: bool
    var agentEnRouteKey: nat

    function State(): Indicator
      reads this
    {
      Indicator(prevGoAcc, isNewlyAddedAgent, agentEnRouteKey)
    }

    /** Mounting remembers the record's marker; no animation, key 0. */
    constructor(goAcc: string)
      ensures State() == Indicator(goAcc, false, 0)
    {
      prevGoAcc, isNewlyAddedAgent, agentEnRouteKey := goAcc, false, 0;
    }

    method WatchGoAcc(current: string)
      modifies this
      ensures State() == Watch(old(State()), current)
      ensures agentEnRouteKey >= old(agentEnRouteKey)
    {
      var prev := prevGoAcc;
      if Trim(prev) == "" && Trim(current) != "" {
        isNewlyAddedAgent := true;
        agentEnRouteKey := agentEnRouteKey + 1;
      } else if Trim(prev) != "" && Trim(current) == "" {
        isNewlyAddedAgent := false;
      }
      prevGoAcc := current;
    }

    method HandleAgentStatusChange(ev: AgentEvent, id: string, idPax: Option<string>)
      modifies this
      ensures State() == Receive(old(State()), ev, id, idPax)
      ensures agentEnRouteKey >= old(agentEnRouteKey)
    {
      if ev.passengerId == id || ev.idPax == idPax {
        if ev.hasAgent && (ev.isInitial || ev.isNew) {
          isNewlyAddedAgent := true;
          agentEnRouteKey := agentEnRouteKey + 1;
        } else if ev.isRemoved {
          isNewlyAddedAgent := false;
        }
      }
    }

    method TimerFired()
      modifies this
      ensures State() == Expire(old(State()))
    {
      isNewlyAddedAgent := false;
    }
  }
}
