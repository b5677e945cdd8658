/**
 * The DTO shapes of src/api/types.ts that the modelled code reads, and the
 * outcome of an awaited API call. Only the fields the modelled code uses are
 * kept; ISO timestamps are epoch milliseconds.
 */
module ApiTypes {
  import opened Wrappers
  import opened Time

  /** `TicketStatus`. */
  datatype TicketStatus = Waiting | Serving | Completed | Skipped {
    /** The string the server sends. */
    function Name(): string {
      match this
      case Waiting => "Waiting"
      case Serving => "Serving"
      case Completed => "Completed"
      case Skipped => "Skipped"
    }
  }

  /** `RoomStatusDto` (and `SiteRoomStatusDto`, which has the same fields). */
  datatype RoomStatusDto = RoomStatusDto(
    roomSlug: string,
    serviceMinutes: JsValue,
    currentNumber: Option<int>,
    waitingCount: JsValue,
    now: int)

  /** `MyTicketDto`. */
  datatype MyTicketDto = MyTicketDto(ticketId: string, number: int, status: string)

  /** `RoomStatusResponse`. */
  datatype RoomStatusResponse = RoomStatusResponse(
    siteSlug: string,
    roomSlug: string,
    status: RoomStatusDto,
    myTicket: Option<MyTicketDto>)

  /** `CustomerLoginResponse`. */
  datatype CustomerLoginResponse = CustomerLoginResponse(customerId: string, points: int, freeCredits: int, tier: string)

  /** `RoomCatalogDto`. */
  datatype RoomCatalogDto = RoomCatalogDto(roomId: string, roomSlug: string, roomName: string)

  /** `SiteCatalogDto`. */
  datatype SiteCatalogDto = SiteCatalogDto(siteId: string, siteSlug: string, siteName: string, rooms: seq<RoomCatalogDto>)

  /** A value thrown by an awaited call: an `Error` instance carries its message. */
  datatype Thrown = ErrorInstance(message: string) | OtherValue

  /** How an awaited API call settles. */
  datatype Response<+T> = Ok(value: T) | Threw(thrown: Thrown)

  /** `e instanceof Error ? e.message : fallback`. */
  function ErrorText(e: Thrown, fallback: string): (r: string)
    ensures e.ErrorInstance? ==> r == e.message
    ensures e.OtherValue? ==> r == fallback
  {
    if e.ErrorInstance? then e.message else fallback
  }
}
