/**
 * src/pages/MyTicketPage.tsx: which ticket the page follows, the room
 * subscription effect with its 10 s failsafe poll, and `clearSavedTicket`.
 */
module MyTicketPage {
  import opened Wrappers
  import opened OrderedSet
  import opened QueueHub
  import opened Failsafe
  import opened Storage
  import opened JsString
  import QrCodesPage

  const CheckIntervalMs: int := 10000

  /** `ticketIdFromQuery ?? storage.getTicketId(siteSlug, roomSlug)`: `??` falls through on null only. */
  function SelectTicketId(fromQuery: Option<string>, stored: Option<string>): (r: Option<string>)
    ensures fromQuery.Some? ==> r == fromQuery
    ensures fromQuery.None? ==> r == stored
  {
    if fromQuery.Some? then fromQuery else stored
  }

  /** An empty `ticketId` in the query hides a stored ticket, so the page follows no ticket. */
  lemma EmptyQueryHidesStoredTicket(stored: Option<string>)
    ensures SelectTicketId(Some(""), stored) == Some("")
    ensures !Truthy(SelectTicketId(Some(""), stored))
    ensures Truthy(SelectTicketId(None, stored)) <==> Truthy(stored)
  {
  }

  /** The link `clearSavedTicket` navigates to; the slugs are not encoded. */
  function RoomPath(siteSlug: string, roomSlug: string): (r: string)
    ensures |r| == |siteSlug| + |roomSlug| + 6
    ensures r[..3] == "/s/" && r[3..3 + |siteSlug|] == siteSlug
    ensures r[3 + |siteSlug|..6 + |siteSlug|] == "/r/"
    ensures r[|r| - |roomSlug|..] == roomSlug
  {
    "/s/" + siteSlug + "/r/" + roomSlug
  }

  /** With '/'-free slugs the path has exactly the segments "", "s", the site, "r" and the room. */
  lemma RoomPathSegments(siteSlug: string, roomSlug: string)
    requires '/' !in siteSlug && '/' !in roomSlug
    ensures Split(RoomPath(siteSlug, roomSlug), '/') == ["", "s", siteSlug, "r", roomSlug]
  {
    QrCodesPage.SplitRoomPath(siteSlug, roomSlug);
  }

  /** The effect's closure state for the followed ticket. */
  class MyTicketEffect {
    const siteSlug: string
    const roomSlug: string
    const store: LocalStorage
    const ticketId: Option<string>
    const hub: QueueHubClient
    const listener: ListenerId
    /** The effect got past `if (!siteSlug || !roomSlug || !ticketId) return`. */
    const active: bool
    var isMounted: bool
    var lastSignalRUpdate: int
    var timerActive: bool
    var joinPending: bool
    var unsub: Option<Unsubscriber>
    var refreshes: seq<int>

    ghost predicate Valid()
      reads this
    {
      && timerActive == isMounted
      && (active ==> Truthy(ticketId))
      && (!active ==> !isMounted && !joinPending && unsub == None)
      && (unsub.Some? ==> unsub.value == Unsubscriber(listener))
    }

    /** Mount: picks the ticket, then runs the effect body up to the start of the asynchronous join. */
    constructor (siteSlug: string, roomSlug: string, ticketIdFromQuery: Option<string>, store: LocalStorage,
                 hub: QueueHubClient, listener: ListenerId, now: int)
      modifies store
      ensures Valid()
      ensures this.siteSlug == siteSlug && this.roomSlug == roomSlug && this.store == store
      ensures this.hub == hub && this.listener == listener
      ensures ticketId == SelectTicketId(ticketIdFromQuery, old(GetTicketId(store, siteSlug, roomSlug)))
      ensures active <==> siteSlug != "" && roomSlug != "" && Truthy(ticketId)
      ensures active ==> GetTicketId(store, siteSlug, roomSlug) == ticketId
      ensures !active ==> store.items == old(store.items)
      ensures forall k :: k != TicketKey(siteSlug, roomSlug) ==> store.GetItem(k) == old(store.GetItem(k))
      ensures isMounted == active && joinPending == active && unsub == None
      ensures active ==> lastSignalRUpdate == now
      ensures refreshes == (if active then [now] else [])
    {
      this.siteSlug := siteSlug;
      this.roomSlug := roomSlug;
      this.store := store;
      this.hub := hub;
      this.listener := listener;
      var id := SelectTicketId(ticketIdFromQuery, GetTicketId(store, siteSlug, roomSlug));
      ticketId := id;
      var on := siteSlug != "" && roomSlug != "" && Truthy(id);
      active := on;
      isMounted := on;
      timerActive := on;
      joinPending := on;
      lastSignalRUpdate := now;
      unsub := None;
      refreshes := if on then [now] else [];
      new;
      if on {
        SetTicketId(store, siteSlug, roomSlug, id.value);
      }
    }

    /** `refresh()`: a load of the ticket's room status, skipped when there is no ticket. */
    method Refresh(now: int)
      modifies this
      ensures refreshes == old(refreshes) + (if Truthy(ticketId) then [now] else [])
      ensures isMounted == old(isMounted) && lastSignalRUpdate == old(lastSignalRUpdate)
      ensures timerActive == old(timerActive) && joinPending == old(joinPending) && unsub == old(unsub)
    {
      if !Truthy(ticketId) {
        return;
      }
      refreshes := refreshes + [now];
    }

    /** `safeRefresh()`. */
    method SafeRefresh(now: int)
      modifies this
      ensures refreshes == old(refreshes) + (if isMounted && Truthy(ticketId) then [now] else [])
      ensures isMounted == old(isMounted) && lastSignalRUpdate == old(lastSignalRUpdate)
      ensures timerActive == old(timerActive) && joinPending == old(joinPending) && unsub == old(unsub)
    {
      if isMounted {
        Refresh(now);
      }
    }

    /** One firing of the 10 s interval: a stale clock is reset and the ticket refreshed. */
    method Tick(now: int)
      requires Valid()
      modifies this
      ensures Valid()
      ensures lastSignalRUpdate == (if old(timerActive) then ClockAfter(old(lastSignalRUpdate), [now]) else old(lastSignalRUpdate))
      ensures refreshes == old(refreshes) + (if old(timerActive) then TimerRefreshes(old(lastSignalRUpdate), [now]) else [])
      ensures isMounted == old(isMounted) && timerActive == old(timerActive)
      ensures joinPending == old(joinPending) && unsub == old(unsub)
    {
      if !timerActive || !isMounted {
        return;
      }
      if Stale(lastSignalRUpdate, now) {
        lastSignalRUpdate := now;
        SafeRefresh(now);
      }
    }

    /** The registered listener receives a notification. */
    method Notify(now: int, payload: QueueUpdatedPayload)
      requires Valid() && listener in hub.queueListeners
      modifies this
      ensures Valid()
      ensures lastSignalRUpdate == (if MatchesRoom(payload, siteSlug, roomSlug) then now else old(lastSignalRUpdate))
      ensures refreshes == old(refreshes) +
        (if MatchesRoom(payload, siteSlug, roomSlug) && isMounted && Truthy(ticketId) then [now] else [])
      ensures isMounted == old(isMounted) && timerActive == old(timerActive)
      ensures joinPending == old(joinPending) && unsub == old(unsub)
    {
      if payload.siteSlug == siteSlug && payload.roomSlug == Some(roomSlug) {
        lastSignalRUpdate := now;
        SafeRefresh(now);
      }
    }

    /** The asynchronous join completes: `await hub.start()`, `await hub.joinRoom(...)`, then `onQueueUpdated`. */
    method Subscribe(env: ConnectEnv, invokeOk: bool) returns (r: Outcome<HubError>)
      requires Valid() && joinPending && hub.Valid() && env.WellFormed()
      modifies this, hub.Repr()
      ensures Valid() && hub.Valid() && fresh(hub.Repr() - old(hub.Repr()))
      ensures !joinPending
      ensures hub.connection != null && (old(hub.connection) != null ==> hub.connection == old(hub.connection))
      ensures hub.State() == StartState(old(hub.State()), env)
      ensures hub.StartCalls() == old(hub.StartCalls()) + (if StartCallsConnStart(old(hub.State())) then 1 else 0)
      ensures r == JoinResult(StartResult(old(hub.State()), env), invokeOk)
      ensures hub.Invoked() == old(hub.Invoked()) +
        (if StartResult(old(hub.State()), env) == Pass then [Invocation.JoinRoom(siteSlug, roomSlug)] else [])
      ensures hub.joinedRooms ==
        (if r == Pass then Add(old(hub.joinedRooms), RoomKey(siteSlug, roomSlug)) else old(hub.joinedRooms))
      ensures hub.queueListeners == (if r == Pass then Add(old(hub.queueListeners), listener) else old(hub.queueListeners))
      ensures unsub == (if r == Pass then Some(Unsubscriber(listener)) else old(unsub))
      ensures hub.joinedSites == old(hub.joinedSites)
      ensures isMounted == old(isMounted) && timerActive == old(timerActive)
      ensures lastSignalRUpdate == old(lastSignalRUpdate) && refreshes == old(refreshes)
    {
      joinPending := false;
      r := hub.Start(env);
      if r.Fail? {
        return;
      }
      StartPassLeavesConnected(old(hub.State()), env);
      r := hub.JoinRoom(siteSlug, roomSlug, env, invokeOk);
      if r.Fail? {
        return;
      }
      var u := hub.OnQueueUpdated(listener);
      unsub := Some(u);
    }

    /** The effect's cleanup. */
    method Unmount()
      requires Valid() && hub.Valid()
      modifies this, hub
      ensures Valid() && hub.Valid()
      ensures !isMounted && !timerActive
      ensures hub.queueListeners ==
        (if old(unsub).Some? then Delete(old(hub.queueListeners), listener) else old(hub.queueListeners))
      ensures hub.connection == old(hub.connection)
      ensures hub.joinedRooms == old(hub.joinedRooms) && hub.joinedSites == old(hub.joinedSites)
      ensures joinPending == old(joinPending) && unsub == old(unsub)
      ensures lastSignalRUpdate == old(lastSignalRUpdate) && refreshes == old(refreshes)
    {
      if !active {
        return;
      }
      isMounted := false;
      timerActive := false;
      if unsub.Some? {
        hub.Unsubscribe(unsub.value);
      }
    }

    /** `clearSavedTicket()`: forgets only this room's stored ticket and returns the room page's path. */
    method ClearSavedTicket() returns (path: string)
      modifies store
      ensures GetTicketId(store, siteSlug, roomSlug) == None
      ensures forall k :: k != TicketKey(siteSlug, roomSlug) ==> store.GetItem(k) == old(store.GetItem(k))
      ensures GetCustomerId(store) == old(GetCustomerId(store))
      ensures path == RoomPath(siteSlug, roomSlug)
    {
      ClearTicketId(store, siteSlug, roomSlug);
      path := RoomPath(siteSlug, roomSlug);
    }
  }
}
