/** The status labels and the new-ticket wait estimate of src/components/RoomStatusCard.tsx. */
module RoomStatusCard {
  import opened Wrappers
  import opened Time
  import opened ApiTypes

  /** `ticketStatusVi(status)`: the Vietnamese label of a ticket status string. */
  function TicketStatusVi(status: string): (r: string)
    ensures status == "Waiting" ==> r == "Đang chờ"
    ensures status == "Serving" ==> r == "Đang phục vụ"
    ensures status == "Completed" ==> r == "Hoàn tất"
    ensures status == "Skipped" ==> r == "Bỏ qua"
    ensures status !in {"Waiting", "Serving", "Completed", "Skipped"} ==> r == status
  {
    if status == "Waiting" then "Đang chờ"
    else if status == "Serving" then "Đang phục vụ"
    else if status == "Completed" then "Hoàn tất"
    else if status == "Skipped" then "Bỏ qua"
    else status
  }

  /** Every status the server sends gets its own label, different from the status name. */
  lemma StatusLabelsDistinct(a: TicketStatus, b: TicketStatus)
    ensures TicketStatusVi(a.Name()) != a.Name()
    ensures a != b ==> TicketStatusVi(a.Name()) != TicketStatusVi(b.Name())
  {
  }

  /** The minutes one ticket takes: `safeNumber(serviceMinutes, 10)`. */
  function ServiceMinutes(status: RoomStatusDto): (r: int)
    ensures IsFiniteNumber(status.serviceMinutes) ==> r == status.serviceMinutes.n.value
    ensures !IsFiniteNumber(status.serviceMinutes) ==> r == 10
  {
    SafeNumber(status.serviceMinutes, 10)
  }

  /** JavaScript truthiness of `currentNumber`: null and 0 are falsy. */
  predicate Truthy(n: Option<int>) {
    n.Some? && n.value != 0
  }

  /** The slot of the ticket being served: `currentNumber ? 1 : 0`. */
  function ServingSlot(status: RoomStatusDto): (r: int)
    ensures r == 1 <==> Truthy(status.currentNumber)
    ensures r == 0 <==> !Truthy(status.currentNumber)
  {
    if Truthy(status.currentNumber) then 1 else 0
  }

  /** `estForNewTicketMinutes`. */
  function NewTicketEstimateMinutes(status: RoomStatusDto): (r: int)
    ensures r == SafeNumber(status.waitingCount) * ServiceMinutes(status)
      + (if Truthy(status.currentNumber) then ServiceMinutes(status) else 0)
  {
    (SafeNumber(status.waitingCount, 0) + ServingSlot(status)) * ServiceMinutes(status)
  }

  /** `addMinutes(status.now, estForNewTicketMinutes)`, before formatting. */
  function NewTicketEstimateTime(status: RoomStatusDto): (r: int)
    ensures r - status.now == NewTicketEstimateMinutes(status) * MsPerMinute
  {
    AddMinutes(status.now, NewTicketEstimateMinutes(status))
  }

  /** The estimate counts one service time per waiting ticket, plus one for the ticket in service. */
  lemma EstimateCountsServedTicket(status: RoomStatusDto)
    ensures NewTicketEstimateMinutes(status) ==
      SafeNumber(status.waitingCount) * ServiceMinutes(status)
      + (if Truthy(status.currentNumber) then ServiceMinutes(status) else 0)
    ensures status.currentNumber == None || status.currentNumber == Some(0) ==>
      NewTicketEstimateMinutes(status) == SafeNumber(status.waitingCount) * ServiceMinutes(status)
  {
  }

  /** A missing or non-finite waiting count counts as zero, so only the served ticket is left. */
  lemma EstimateWithoutWaitingCount(status: RoomStatusDto)
    requires !IsFiniteNumber(status.waitingCount)
    ensures NewTicketEstimateMinutes(status) == ServingSlot(status) * ServiceMinutes(status)
  {
  }

  /** With non-negative inputs the estimate is non-negative and grows with the waiting count. */
  lemma EstimateMonotone(status: RoomStatusDto, more: int)
    requires SafeNumber(status.waitingCount) >= 0 && ServiceMinutes(status) >= 0 && more >= 0
    ensures NewTicketEstimateMinutes(status) >= 0
    ensures NewTicketEstimateMinutes(status.(waitingCount := Number(Finite(SafeNumber(status.waitingCount) + more))))
      >= NewTicketEstimateMinutes(status)
  {
    var w := SafeNumber(status.waitingCount);
    var m := ServiceMinutes(status);
    var s := ServingSlot(status);
    assert (w + more + s) * m == (w + s) * m + more * m;
  }

  /** The estimated time is never before `status.now` when the estimate is non-negative. */
  lemma EstimateTimeNotBeforeNow(status: RoomStatusDto)
    requires SafeNumber(status.waitingCount) >= 0 && ServiceMinutes(status) >= 0
    ensures NewTicketEstimateTime(status) >= status.now
  {
    EstimateMonotone(status, 0);
  }
}
