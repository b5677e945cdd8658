/**
 * src/pages/StaffRoomPage.tsx: the room subscription effect with its 5 s
 * failsafe poll, and `runAction`, which merges the status an action returns
 * into the loaded view.
 */
module StaffRoomPage {
  import opened Wrappers
  import opened OrderedSet
  import opened ApiTypes
  import opened QueueHub
  import opened Failsafe

  const CheckIntervalMs: int := 5000
  const ActionFailedText: string := "Thao tác thất bại"
  const LoadFailedText: string := "Không tải được dữ liệu"

  /** `prev ? { ...prev, status } : prev`. */
  function WithStatus(prev: Option<RoomStatusResponse>, status: RoomStatusDto): (r: Option<RoomStatusResponse>)
    ensures r.Some? <==> prev.Some?
    ensures r.Some? ==> r.value.status == status
    ensures r.Some? ==> r.value.siteSlug == prev.value.siteSlug
    ensures r.Some? ==> r.value.roomSlug == prev.value.roomSlug && r.value.myTicket == prev.value.myTicket
  {
    if prev.Some? then Some(prev.value.(status := status)) else prev
  }

  /** Merging twice keeps only the later status. */
  lemma WithStatusLastWins(prev: Option<RoomStatusResponse>, s1: RoomStatusDto, s2: RoomStatusDto)
    ensures WithStatus(WithStatus(prev, s1), s2) == WithStatus(prev, s2)
  {
  }

  /** Merging the status a view already shows changes nothing. */
  lemma WithStatusIdempotent(prev: RoomStatusResponse)
    ensures WithStatus(Some(prev), prev.status) == Some(prev)
  {
  }

  /** The effect's closure state, as for the TV view but scoped to one room, with the staff view's loaded data. */
  class StaffRoomEffect {
    const siteSlug: string
    const roomSlug: string
    const hub: QueueHubClient
    const listener: ListenerId
    /** The effect got past `if (!siteSlug || !roomSlug) return`. */
    const active: bool
    var isMounted: bool
    var lastSignalRUpdate: int
    var timerActive: bool
    var joinPending: bool
    var unsub: Option<Unsubscriber>
    var refreshes: seq<int>
    var data: Option<RoomStatusResponse>
    var error: Option<string>
    var loading: bool

    ghost predicate Valid()
      reads this
    {
      && timerActive == isMounted
      && (!active ==> !isMounted && !joinPending && unsub == None)
      && (unsub.Some? ==> unsub.value == Unsubscriber(listener))
    }

    /** Mount: the effect body up to the start of the asynchronous join. */
    constructor (siteSlug: string, roomSlug: string, hub: QueueHubClient, listener: ListenerId, now: int)
      ensures Valid()
      ensures this.siteSlug == siteSlug && this.roomSlug == roomSlug && this.hub == hub && this.listener == listener
      ensures active <==> siteSlug != "" && roomSlug != ""
      ensures isMounted == active && joinPending == active && unsub == None
      ensures active ==> lastSignalRUpdate == now
      ensures refreshes == (if active then [now] else [])
      ensures data == None && error == None && loading == active
    {
      this.siteSlug := siteSlug;
      this.roomSlug := roomSlug;
      this.hub := hub;
      this.listener := listener;
      var on := siteSlug != "" && roomSlug != "";
      active := on;
      isMounted := on;
      timerActive := on;
      joinPending := on;
      lastSignalRUpdate := now;
      unsub := None;
      refreshes := if on then [now] else [];
      data := None;
      error := None;
      loading := on;
    }

    /**
     * `refresh()` up to its `await` (also the page's manual button): the view
     * shows it is loading and clears the error; `LoadSettles` finishes it.
     */
    method Refresh(now: int)
      modifies this
      ensures refreshes == old(refreshes) + [now]
      ensures loading && error == None && data == old(data)
      ensures isMounted == old(isMounted) && lastSignalRUpdate == old(lastSignalRUpdate)
      ensures timerActive == old(timerActive) && joinPending == old(joinPending) && unsub == old(unsub)
    {
      refreshes := refreshes + [now];
      loading := true;
      error := None;
    }

    /**
     * The awaited `getRoomStatus` of a `refresh()` settles: the response
     * replaces the data, or the error is shown and the data kept; loading ends.
     */
    method LoadSettles(res: Response<RoomStatusResponse>)
      modifies this
      ensures !loading
      ensures data == (if res.Ok? then Some(res.value) else old(data))
      ensures error == (if res.Ok? then old(error) else Some(ErrorText(res.thrown, LoadFailedText)))
      ensures isMounted == old(isMounted) && lastSignalRUpdate == old(lastSignalRUpdate) && refreshes == old(refreshes)
      ensures timerActive == old(timerActive) && joinPending == old(joinPending) && unsub == old(unsub)
    {
      if res.Ok? {
        data := Some(res.value);
      } else {
        error := Some(ErrorText(res.thrown, LoadFailedText));
      }
      loading := false;
    }

    /** `safeRefresh()`. */
    method SafeRefresh(now: int)
      modifies this
      ensures refreshes == old(refreshes) + (if isMounted then [now] else [])
      ensures isMounted == old(isMounted) && lastSignalRUpdate == old(lastSignalRUpdate)
      ensures timerActive == old(timerActive) && joinPending == old(joinPending) && unsub == old(unsub)
      ensures data == old(data)
      ensures if refreshes == old(refreshes) then loading == old(loading) && error == old(error) else loading && error == None
    {
      if isMounted {
        Refresh(now);
      }
    }

    /** One firing of the 5 s interval: a stale clock is reset and the view refreshed. */
    method Tick(now: int)
      requires Valid()
      modifies this
      ensures Valid()
      ensures lastSignalRUpdate == (if old(timerActive) then ClockAfter(old(lastSignalRUpdate), [now]) else old(lastSignalRUpdate))
      ensures refreshes == old(refreshes) + (if old(timerActive) then TimerRefreshes(old(lastSignalRUpdate), [now]) else [])
      ensures isMounted == old(isMounted) && timerActive == old(timerActive)
      ensures joinPending == old(joinPending) && unsub == old(unsub)
      ensures data == old(data)
      ensures if refreshes == old(refreshes) then loading == old(loading) && error == old(error) else loading && error == None
    {
      if !timerActive || !isMounted {
        return;
      }
      if Stale(lastSignalRUpdate, now) {
        lastSignalRUpdate := now;
        SafeRefresh(now);
      }
    }

    /** The registered listener receives a notification. */
    method Notify(now: int, payload: QueueUpdatedPayload)
      requires Valid() && listener in hub.queueListeners
      modifies this
      ensures Valid()
      ensures lastSignalRUpdate == (if MatchesRoom(payload, siteSlug, roomSlug) then now else old(lastSignalRUpdate))
      ensures refreshes == old(refreshes) + (if MatchesRoom(payload, siteSlug, roomSlug) && isMounted then [now] else [])
      ensures isMounted == old(isMounted) && timerActive == old(timerActive)
      ensures joinPending == old(joinPending) && unsub == old(unsub)
      ensures data == old(data)
      ensures if refreshes == old(refreshes) then loading == old(loading) && error == old(error) else loading && error == None
    {
      if payload.siteSlug == siteSlug && payload.roomSlug == Some(roomSlug) {
        lastSignalRUpdate := now;
        SafeRefresh(now);
      }
    }

    /** The asynchronous join completes: `await hub.joinRoom(siteSlug, roomSlug)`, then `onQueueUpdated`. */
    method Subscribe(env: ConnectEnv, invokeOk: bool) returns (r: Outcome<HubError>)
      requires Valid() && joinPending && hub.Valid() && env.WellFormed()
      modifies this, hub.Repr()
      ensures Valid() && hub.Valid() && fresh(hub.Repr() - old(hub.Repr()))
      ensures !joinPending
      ensures hub.connection != null && (old(hub.connection) != null ==> hub.connection == old(hub.connection))
      ensures hub.State() == StartState(old(hub.State()), env)
      ensures hub.StartCalls() == old(hub.StartCalls()) + (if StartCallsConnStart(old(hub.State())) then 1 else 0)
      ensures r == JoinResult(StartResult(old(hub.State()), env), invokeOk)
      ensures hub.Invoked() == old(hub.Invoked()) +
        (if StartResult(old(hub.State()), env) == Pass then [Invocation.JoinRoom(siteSlug, roomSlug)] else [])
      ensures hub.joinedRooms ==
        (if r == Pass then Add(old(hub.joinedRooms), RoomKey(siteSlug, roomSlug)) else old(hub.joinedRooms))
      ensures hub.queueListeners == (if r == Pass then Add(old(hub.queueListeners), listener) else old(hub.queueListeners))
      ensures unsub == (if r == Pass then Some(Unsubscriber(listener)) else old(unsub))
      ensures hub.joinedSites == old(hub.joinedSites)
      ensures isMounted == old(isMounted) && timerActive == old(timerActive)
      ensures lastSignalRUpdate == old(lastSignalRUpdate) && refreshes == old(refreshes)
      ensures data == old(data) && error == old(error) && loading == old(loading)
    {
      joinPending := false;
      r := hub.JoinRoom(siteSlug, roomSlug, env, invokeOk);
      if r.Fail? {
        return;
      }
      var u := hub.OnQueueUpdated(listener);
      unsub := Some(u);
    }

    /** The effect's cleanup. */
    method Unmount()
      requires Valid() && hub.Valid()
      modifies this, hub
      ensures Valid() && hub.Valid()
      ensures !isMounted && !timerActive
      ensures hub.queueListeners ==
        (if old(unsub).Some? then Delete(old(hub.queueListeners), listener) else old(hub.queueListeners))
      ensures hub.connection == old(hub.connection)
      ensures hub.joinedRooms == old(hub.joinedRooms) && hub.joinedSites == old(hub.joinedSites)
      ensures joinPending == old(joinPending) && unsub == old(unsub)
      ensures lastSignalRUpdate == old(lastSignalRUpdate) && refreshes == old(refreshes)
      ensures data == old(data) && error == old(error) && loading == old(loading)
    {
      if !active {
        return;
      }
      isMounted := false;
      timerActive := false;
      if unsub.Some? {
        hub.Unsubscribe(unsub.value);
      }
    }

    /** `runAction(action)` once the action settles. */
    method RunAction(result: Response<RoomStatusDto>)
      modifies this
      ensures !loading
      ensures data == (if result.Ok? then WithStatus(old(data), result.value) else old(data))
      ensures error == (if result.Ok? then None else Some(ErrorText(result.thrown, ActionFailedText)))
      ensures isMounted == old(isMounted) && timerActive == old(timerActive) && lastSignalRUpdate == old(lastSignalRUpdate)
      ensures joinPending == old(joinPending) && unsub == old(unsub) && refreshes == old(refreshes)
    {
      loading := true;
      error := None;
      if result.Ok? {
        data := WithStatus(data, result.value);
      } else {
        error := Some(ErrorText(result.thrown, ActionFailedText));
      }
      loading := false;
    }
  }

  /**
   * Two staff views mounted on the shared hub, the second joining after the
   * first, with the server accepting or rejecting each JoinRoom (`okA`, `okB`):
   * both joins go through one connection, and once the first join's `start()`
   * has resolved the second join does not call `conn.start()` again, so its
   * outcome is its own invoke's.
   */
  method TwoViewsShareOneConnection(hub: QueueHubClient, siteSlug: string, roomA: string, roomB: string,
                                    env: ConnectEnv, okA: bool, okB: bool, now: int)
    returns (first: Outcome<HubError>, second: Outcome<HubError>)
    requires siteSlug != "" && roomA != "" && roomB != ""
    requires hub.Valid() && env.WellFormed()
    modifies hub.Repr()
    ensures hub.connection != null && (old(hub.connection) != null ==> hub.connection == old(hub.connection))
    ensures first == JoinResult(StartResult(old(hub.State()), env), okA)
    ensures StartResult(old(hub.State()), env) == Pass ==> second == JoinResult(Pass, okB) && hub.State() == Connected
    ensures StartResult(old(hub.State()), env) == Pass ==>
      hub.StartCalls() == old(hub.StartCalls()) + (if StartCallsConnStart(old(hub.State())) then 1 else 0)
    ensures StartResult(old(hub.State()), env) == Pass ==>
      hub.Invoked() == old(hub.Invoked()) + [Invocation.JoinRoom(siteSlug, roomA), Invocation.JoinRoom(siteSlug, roomB)]
  {
    var a := new StaffRoomEffect(siteSlug, roomA, hub, 1, now);
    var b := new StaffRoomEffect(siteSlug, roomB, hub, 2, now);
    first := a.Subscribe(env, okA);
    StartPassLeavesConnected(old(hub.State()), env);
    second := b.Subscribe(env, okB);
  }

  /** A mounted view whose first load succeeded merges an action's status into the loaded data. */
  method ActionAfterLoad(siteSlug: string, roomSlug: string, hub: QueueHubClient, now: int,
                         loaded: RoomStatusResponse, status: RoomStatusDto)
    returns (page: StaffRoomEffect)
    requires siteSlug != "" && roomSlug != ""
    ensures page.isMounted && !page.loading && page.error == None
    ensures page.data == Some(loaded.(status := status))
    ensures page.data.value.siteSlug == loaded.siteSlug && page.data.value.myTicket == loaded.myTicket
  {
    page := new StaffRoomEffect(siteSlug, roomSlug, hub, 1, now);
    page.LoadSettles(Ok(loaded));
    page.RunAction(Ok(status));
  }
}
