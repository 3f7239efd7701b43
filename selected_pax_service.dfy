/**
 * The messages sent to the spreadsheet web app about selected passengers:
 * append, delete by uuid, delete by row, update by uuid. Sending is
 * fire-and-forget, so it is modelled as appending to an outbox.
 */
module SelectedPaxService {
  import opened Wrappers
  import opened Records
  import SiteConfig

  /** The build's settings: the web app's address (`""` when unset), the site token, the site id. */
  datatype Config = Config(webappUrl: string, siteToken: string, siteId: string)

  /** A value in an update's `fields` object. */
  datatype FieldValue = Text(text: string) | Flag(flag: bool)

  /** The `passenger` object of an append. */
  datatype PaxBody = PaxBody(
    uuid: string, createdAt: string, idPax: string, lastName: string, firstName: string,
    flightNumber: string, departureTime: string, goAcc: string, ssr1: string,
    isSkyPriority: bool, isAssisted: bool)

  datatype Message =
    | Append(sheetId: string, siteId: string, token: string, passenger: PaxBody)
    | DeleteByUuid(sheetId: string, token: string, uuid: string)
    | DeleteByRow(sheetId: string, token: string, rowNumber: int)
    | UpdateByUuid(sheetId: string, token: string, uuid: string, fields: map<string, FieldValue>)
  {
    /** The `action` field. */
    function Action(): string
    {
      match this
      case Append(_, _, _, _) => "append"
      case DeleteByUuid(_, _, _) => "deleteByUuid"
      case DeleteByRow(_, _, _) => "deleteByRow"
      case UpdateByUuid(_, _, _, _) => "updateByUuid"
    }
  }

  /** What one call does: sends a message, returns without sending, or throws. */
  datatype Outcome = Send(message: Message) | Skip | Throw(error: string)

  /** The append's `passenger` object: absent text becomes `""`, the two flags are coerced with `!!`. */
  function BodyOf(p: Passenger, uuid: string, createdAt: string): (r: PaxBody)
    ensures r.uuid == uuid && r.createdAt == createdAt
    ensures r.idPax == (if p.idPax.Some? then p.idPax.value else "")
    ensures r.lastName == p.lastName && r.firstName == p.firstName && r.flightNumber == p.flightNumber
    ensures r.departureTime == p.departureTime && r.goAcc == p.goAcc && r.ssr1 == p.ssr1
    ensures r.isSkyPriority == p.isSkyPriority && r.isAssisted == p.isAssisted
  {
    PaxBody(uuid, createdAt, p.idPax.GetOr(""), p.lastName, p.firstName, p.flightNumber,
            p.departureTime, p.goAcc, p.ssr1, p.isSkyPriority, p.isAssisted)
  }

  /** `{ rowNumber: undefined, uuid }`. */
  datatype AppendReply = AppendReply(rowNumber: Option<int>, uuid: string)

  /** `appendSelectedPassenger`: throws without an address or a sheet, else sends the append. */
  function AppendOutcome(c: Config, p: Passenger, uuid: string, createdAt: string): (r: Outcome)
    ensures c.webappUrl == "" ==> r == Throw("REACT_APP_GAS_WEBAPP_URL manquant.")
    ensures c.webappUrl != "" && c.siteId !in SiteConfig.SiteSheets ==> r.Throw?
    ensures c.webappUrl != "" && c.siteId !in SiteConfig.SiteSheets ==> r == Throw(SiteConfig.RequireSheetId(c.siteId).error)
    ensures r.Send? <==> c.webappUrl != "" && c.siteId in SiteConfig.SiteSheets
    ensures !r.Skip?
    ensures r.Send? ==> r.message.Action() == "append"
    ensures r.Send? ==> r.message == Append(SiteConfig.SiteSheets[c.siteId], c.siteId, c.siteToken, BodyOf(p, uuid, createdAt))
  {
    if c.webappUrl == "" then Throw("REACT_APP_GAS_WEBAPP_URL manquant.")
    else
      match SiteConfig.RequireSheetId(c.siteId)
      case Failure(e) => Throw(e)
      case Success(sheetId) => Send(Append(sheetId, c.siteId, c.siteToken, BodyOf(p, uuid, createdAt)))
  }

  /** `deleteRowByUuid`: nothing without an address or a uuid. */
  function DeleteByUuidOutcome(c: Config, uuid: string): (r: Outcome)
    ensures r.Skip? <==> c.webappUrl == "" || uuid == ""
    ensures r.Throw? <==> c.webappUrl != "" && uuid != "" && c.siteId !in SiteConfig.SiteSheets
    ensures r.Throw? ==> r.error == SiteConfig.RequireSheetId(c.siteId).error
    ensures r.Send? ==> r.message == DeleteByUuid(SiteConfig.SiteSheets[c.siteId], c.siteToken, uuid)
  {
    if c.webappUrl == "" || uuid == "" then Skip
    else
      match SiteConfig.RequireSheetId(c.siteId)
      case Failure(e) => Throw(e)
      case Success(sheetId) => Send(DeleteByUuid(sheetId, c.siteToken, uuid))
  }

  /** `deleteRowByNumber`: nothing for a missing row or one below 2, so the header row is never deleted. */
  function DeleteByRowOutcome(c: Config, rowNumber: Option<int>): (r: Outcome)
    ensures rowNumber.None? || rowNumber.value < 2 ==> r.Skip?
    ensures r.Skip? <==> c.webappUrl == "" || rowNumber.None? || rowNumber.value < 2
    ensures r.Send? ==> rowNumber.Some? && rowNumber.value >= 2 && c.siteId in SiteConfig.SiteSheets
    ensures r.Throw? <==> !r.Skip? && c.siteId !in SiteConfig.SiteSheets
    ensures r.Throw? ==> r.error == SiteConfig.RequireSheetId(c.siteId).error
    ensures r.Send? ==> r.message == DeleteByRow(SiteConfig.SiteSheets[c.siteId], c.siteToken, rowNumber.value)
  {
    if c.webappUrl == "" || rowNumber.None? || rowNumber.value < 2 then Skip
    else
      match SiteConfig.RequireSheetId(c.siteId)
      case Failure(e) => Throw(e)
      case Success(sheetId) => Send(DeleteByRow(sheetId, c.siteToken, rowNumber.value))
  }

  /** `updateSelectedPassenger`: nothing without an address, a uuid or a `fields` object. */
  function UpdateOutcome(c: Config, uuid: string, fields: Option<map<string, FieldValue>>): (r: Outcome)
    ensures r.Skip? <==> c.webappUrl == "" || uuid == "" || fields.None?
    ensures r.Send? ==> fields.Some? && c.siteId in SiteConfig.SiteSheets
    ensures r.Throw? <==> !r.Skip? && c.siteId !in SiteConfig.SiteSheets
    ensures r.Throw? ==> r.error == SiteConfig.RequireSheetId(c.siteId).error
    ensures r.Send? ==> r.message == UpdateByUuid(SiteConfig.SiteSheets[c.siteId], c.siteToken, uuid, fields.value)
  {
    if c.webappUrl == "" || uuid == "" || fields.None? then Skip
    else
      match SiteConfig.RequireSheetId(c.siteId)
      case Failure(e) => Throw(e)
      case Success(sheetId) => Send(UpdateByUuid(sheetId, c.siteToken, uuid, fields.value))
  }

  /** The outbox holds exactly the messages that have been sent, oldest first. */
  function Sent(sent: seq<Message>, o: Outcome): seq<Message>
  {
    if o.Send? then sent + [o.message] else sent
  }

  class Service {
    const config: Config
    var outbox: seq<Message>

    constructor(c: Config)
      ensures config == c && outbox == []
    {
      config := c;
      outbox := [];
    }

    /** Sends the append and returns the uuid it carries; the row number is not known. */
    method AppendSelectedPassenger(p: Passenger, uuid: string, createdAt: string)
      returns (r: Result<AppendReply, string>)
      modifies this
      ensures outbox == Sent(old(outbox), AppendOutcome(config, p, uuid, createdAt))
      ensures r.Success? <==> AppendOutcome(config, p, uuid, createdAt).Send?
      ensures r.Success? ==> r.value == AppendReply(None, uuid) && r.value.uuid == outbox[|outbox| - 1].passenger.uuid
      ensures r.Failure? ==> AppendOutcome(config, p, uuid, createdAt) == Throw(r.error)
    {
      var o := AppendOutcome(config, p, uuid, createdAt);
      if o.Send? {
        outbox := outbox + [o.message];
        r := Success(AppendReply(None, uuid));
      } else {
        r := Failure(o.error);
      }
    }

    /** Any of the three other calls: sends its message, does nothing, or reports what it threw. */
    method Emit(o: Outcome) returns (error: Option<string>)
      modifies this
      ensures outbox == Sent(old(outbox), o)
      ensures error.Some? <==> o.Throw?
      ensures error.Some? ==> error.value == o.error
    {
      error := None;
      match o
      case Send(m) => outbox := outbox + [m];
      case Throw(e) => error := Some(e);
      case Skip =>
    }

    method DeleteRowByUuid(uuid: string) returns (error: Option<string>)
      modifies this
      ensures outbox == Sent(old(outbox), DeleteByUuidOutcome(config, uuid))
      ensures error.Some? <==> DeleteByUuidOutcome(config, uuid).Throw?
    {
      error := Emit(DeleteByUuidOutcome(config, uuid));
    }

    method DeleteRowByNumber(rowNumber: Option<int>) returns (error: Option<string>)
      modifies this
      ensures outbox == Sent(old(outbox), DeleteByRowOutcome(config, rowNumber))
      ensures error.Some? <==> DeleteByRowOutcome(config, rowNumber).Throw?
    {
      error := Emit(DeleteByRowOutcome(config, rowNumber));
    }

    method UpdateSelectedPassenger(uuid: string, fields: Option<map<string, FieldValue>>) returns (error: Option<string>)
      modifies this
      ensures outbox == Sent(old(outbox), UpdateOutcome(config, uuid, fields))
      ensures error.Some? <==> UpdateOutcome(config, uuid, fields).Throw?
    {
      error := Emit(UpdateOutcome(config, uuid, fields));
    }
  }

  /** No call ever sends a delete of the header row or of row 0. */
  lemma HeaderRowProtected(c: Config, rowNumber: Option<int>)
    ensures DeleteByRowOutcome(c, rowNumber).Send? ==> DeleteByRowOutcome(c, rowNumber).message.rowNumber >= 2
  {
  }

  /** Each call sends at most one message, and only the kind its name says. */
  lemma OneMessagePerCall(c: Config, p: Passenger, uuid: string, createdAt: string, row: Option<int>,
                          fields: Option<map<string, FieldValue>>)
    ensures |Sent([], AppendOutcome(c, p, uuid, createdAt))| <= 1
    ensures DeleteByUuidOutcome(c, uuid).Send? ==> DeleteByUuidOutcome(c, uuid).message.Action() == "deleteByUuid"
    ensures DeleteByRowOutcome(c, row).Send? ==> DeleteByRowOutcome(c, row).message.Action() == "deleteByRow"
    ensures UpdateOutcome(c, uuid, fields).Send? ==> UpdateOutcome(c, uuid, fields).message.Action() == "updateByUuid"
  {
  }
}
