/**
 * src/pages/TvSitePage.tsx: the `RoomTile` wait estimate and the site
 * subscription effect. The effect checks staleness every 5 s, but its tick
 * only resets the clock: the call to `safeRefresh` on line 101 sits inside a
 * `//` comment, so after mount the view refreshes only on realtime
 * notifications for its site (and the manual button).
 */
module TvSitePage {
  import opened Wrappers
  import opened Time
  import opened OrderedSet
  import opened ApiTypes
  import opened QueueHub
  import opened Failsafe
  import RoomStatusCard

  const CheckIntervalMs: int := 5000

  /** `RoomTile`: `safeNumber(waitingCount, 0) * safeNumber(serviceMinutes, 10)`. */
  function RoomTileEstimateMinutes(room: RoomStatusDto): (r: int)
    ensures !IsFiniteNumber(room.waitingCount) ==> r == 0
    ensures IsFiniteNumber(room.waitingCount) && !IsFiniteNumber(room.serviceMinutes) ==> r == room.waitingCount.n.value * 10
    ensures IsFiniteNumber(room.waitingCount) && IsFiniteNumber(room.serviceMinutes) ==>
      r == room.waitingCount.n.value * room.serviceMinutes.n.value
  {
    SafeNumber(room.waitingCount, 0) * RoomStatusCard.ServiceMinutes(room)
  }

  /** The tile does not count the ticket in service; the room card does, so they differ by one service time exactly then. */
  lemma TileOmitsServedTicket(room: RoomStatusDto)
    ensures RoomStatusCard.NewTicketEstimateMinutes(room) - RoomTileEstimateMinutes(room) ==
      (if RoomStatusCard.Truthy(room.currentNumber) then RoomStatusCard.ServiceMinutes(room) else 0)
    ensures !RoomStatusCard.Truthy(room.currentNumber) ==>
      RoomTileEstimateMinutes(room) == RoomStatusCard.NewTicketEstimateMinutes(room)
  {
    RoomStatusCard.EstimateCountsServedTicket(room);
  }

  /** The tile's `eta`, before formatting: `now` plus the estimate. */
  function RoomTileEta(room: RoomStatusDto): (r: int)
    ensures r - room.now == RoomTileEstimateMinutes(room) * MsPerMinute
    ensures RoomTileEstimateMinutes(room) >= 0 ==> r >= room.now
  {
    AddMinutes(room.now, RoomTileEstimateMinutes(room))
  }

  /**
   * The state the effect's closure keeps for one mounted page: `isMounted`,
   * `lastSignalRUpdate`, the interval and `unsub`. `refreshes` records the
   * time of every `refresh()` call; `listener` names the closure passed to
   * `onQueueUpdated`.
   */
  class TvSiteEffect {
    const siteSlug: string
    const hub: QueueHubClient
    const listener: ListenerId
    /** The effect got past `if (!siteSlug) return`. */
    const active: bool
    var isMounted: bool
    var lastSignalRUpdate: int
    var timerActive: bool
    var joinPending: bool
    var unsub: Option<Unsubscriber>
    var refreshes: seq<int>

    ghost predicate Valid()
      reads this
    {
      && timerActive == isMounted
      && (!active ==> !isMounted && !joinPending && unsub == None)
      && (unsub.Some? ==> unsub.value == Unsubscriber(listener))
    }

    /** Mount: the effect body up to the start of the asynchronous join. */
    constructor (siteSlug: string, hub: QueueHubClient, listener: ListenerId, now: int)
      ensures Valid()
      ensures this.siteSlug == siteSlug && this.hub == hub && this.listener == listener
      ensures active <==> siteSlug != ""
      ensures isMounted == active && joinPending == active && unsub == None
      ensures active ==> lastSignalRUpdate == now
      ensures refreshes == (if active then [now] else [])
    {
      this.siteSlug := siteSlug;
      this.hub := hub;
      this.listener := listener;
      active := siteSlug != "";
      isMounted := siteSlug != "";
      timerActive := siteSlug != "";
      joinPending := siteSlug != "";
      lastSignalRUpdate := now;
      unsub := None;
      refreshes := if siteSlug != "" then [now] else [];
    }

    /** `refresh()`: one load of the site status (also the page's manual button). */
    method Refresh(now: int)
      modifies this
      ensures refreshes == old(refreshes) + [now]
      ensures isMounted == old(isMounted) && lastSignalRUpdate == old(lastSignalRUpdate)
      ensures timerActive == old(timerActive) && joinPending == old(joinPending) && unsub == old(unsub)
    {
      refreshes := refreshes + [now];
    }

    /** `safeRefresh()`. */
    method SafeRefresh(now: int)
      modifies this
      ensures refreshes == old(refreshes) + (if isMounted then [now] else [])
      ensures isMounted == old(isMounted) && lastSignalRUpdate == old(lastSignalRUpdate)
      ensures timerActive == old(timerActive) && joinPending == old(joinPending) && unsub == old(unsub)
    {
      if isMounted {
        Refresh(now);
      }
    }

    /** One firing of the 5 s interval: a stale clock is reset, and nothing is refreshed. */
    method Tick(now: int)
      requires Valid()
      modifies this
      ensures Valid()
      ensures lastSignalRUpdate == (if old(timerActive) then ClockAfter(old(lastSignalRUpdate), [now]) else old(lastSignalRUpdate))
      ensures refreshes == old(refreshes)
      ensures isMounted == old(isMounted) && timerActive == old(timerActive)
      ensures joinPending == old(joinPending) && unsub == old(unsub)
    {
      if !timerActive || !isMounted {
        return;
      }
      if Stale(lastSignalRUpdate, now) {
        lastSignalRUpdate := now;
      }
    }

    /** The registered listener receives a notification. */
    method Notify(now: int, payload: QueueUpdatedPayload)
      requires Valid() && listener in hub.queueListeners
      modifies this
      ensures Valid()
      ensures lastSignalRUpdate == (if MatchesSite(payload, siteSlug) then now else old(lastSignalRUpdate))
      ensures refreshes == old(refreshes) + (if MatchesSite(payload, siteSlug) && isMounted then [now] else [])
      ensures isMounted == old(isMounted) && timerActive == old(timerActive)
      ensures joinPending == old(joinPending) && unsub == old(unsub)
    {
      if payload.siteSlug == siteSlug {
        lastSignalRUpdate := now;
        SafeRefresh(now);
      }
    }

    /** The asynchronous join completes: `await hub.start()`, `await hub.joinSite(siteSlug)`, then `onQueueUpdated`. */
    method Subscribe(env: ConnectEnv, invokeOk: bool) returns (r: Outcome<HubError>)
      requires Valid() && joinPending && hub.Valid() && env.WellFormed()
      modifies this, hub.Repr()
      ensures Valid() && hub.Valid() && fresh(hub.Repr() - old(hub.Repr()))
      ensures !joinPending
      ensures hub.connection != null && (old(hub.connection) != null ==> hub.connection == old(hub.connection))
      ensures hub.State() == StartState(old(hub.State()), env)
      ensures hub.StartCalls() == old(hub.StartCalls()) + (if StartCallsConnStart(old(hub.State())) then 1 else 0)
      ensures r == JoinResult(StartResult(old(hub.State()), env), invokeOk)
      ensures hub.Invoked() == old(hub.Invoked()) +
        (if StartResult(old(hub.State()), env) == Pass then [Invocation.JoinSite(siteSlug)] else [])
      ensures hub.joinedSites == (if r == Pass then Add(old(hub.joinedSites), siteSlug) else old(hub.joinedSites))
      ensures hub.queueListeners == (if r == Pass then Add(old(hub.queueListeners), listener) else old(hub.queueListeners))
      ensures unsub == (if r == Pass then Some(Unsubscriber(listener)) else old(unsub))
      ensures hub.joinedRooms == old(hub.joinedRooms)
      ensures isMounted == old(isMounted) && timerActive == old(timerActive)
      ensures lastSignalRUpdate == old(lastSignalRUpdate) && refreshes == old(refreshes)
    {
      joinPending := false;
      r := hub.Start(env);
      if r.Fail? {
        return;
      }
      StartPassLeavesConnected(old(hub.State()), env);
      r := hub.JoinSite(siteSlug, env, invokeOk);
      if r.Fail? {
        return;
      }
      var u := hub.OnQueueUpdated(listener);
      unsub := Some(u);
    }

    /** The effect's cleanup. */
    method Unmount()
      requires Valid() && hub.Valid()
      modifies this, hub
      ensures Valid() && hub.Valid()
      ensures !isMounted && !timerActive
      ensures hub.queueListeners ==
        (if old(unsub).Some? then Delete(old(hub.queueListeners), listener) else old(hub.queueListeners))
      ensures hub.connection == old(hub.connection)
      ensures hub.joinedRooms == old(hub.joinedRooms) && hub.joinedSites == old(hub.joinedSites)
      ensures joinPending == old(joinPending) && unsub == old(unsub)
      ensures lastSignalRUpdate == old(lastSignalRUpdate) && refreshes == old(refreshes)
    {
      if !active {
        return;
      }
      isMounted := false;
      timerActive := false;
      if unsub.Some? {
        hub.Unsubscribe(unsub.value);
      }
    }
  }
}
