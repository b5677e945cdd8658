/**
 * src/pages/CustomerRoomPage.tsx: the customer's room view. It refreshes on
 * mount, on matching realtime notifications and on the manual button only:
 * there is no failsafe timer and the listener has no mounted guard. Taking a
 * ticket stores it for the room before navigating to the ticket's page.
 */
module CustomerRoomPage {
  import opened Wrappers
  import opened OrderedSet
  import opened ApiTypes
  import opened QueueHub
  import opened Failsafe
  import opened Storage
  import MyTicketPage
  import opened JsString

  const TakeTicketFailedText: string := "Lấy số thất bại"
  const LoadFailedText: string := "Không tải được dữ liệu"
  const LoginFailedText: string := "Đăng nhập thất bại"

  /** The `takeTicket` request: the room and the body's `customerId` (`undefined` when there is none). */
  datatype TakeTicketRequest = TakeTicketRequest(siteSlug: string, roomSlug: string, customerId: Option<string>)

  /** `tierVi(tier)`. */
  function TierVi(tier: string): (r: string)
    ensures tier == "Normal" ==> r == "Thường"
    ensures tier != "Normal" ==> r == tier
  {
    if tier == "Normal" then "Thường" else tier
  }

  /** Only the Normal tier is translated; VIP is shown as is. */
  lemma TierViLabels()
    ensures TierVi("VIP") == "VIP"
    ensures forall t :: TierVi(t) == "Thường" ==> t == "Normal" || t == "Thường"
  {
  }

  /** `customer?.customerId ?? storage.getCustomerId()`. */
  function DisplayedCustomerId(customer: Option<CustomerLoginResponse>, store: LocalStorage): (r: Option<string>)
    reads store
    ensures customer.Some? ==> r == Some(customer.value.customerId)
    ensures customer.None? ==> r == GetCustomerId(store)
  {
    if customer.Some? then Some(customer.value.customerId) else GetCustomerId(store)
  }

  /** The logged-in customer's id wins over a stale stored one. */
  lemma LoggedInCustomerWins(c: CustomerLoginResponse, store: LocalStorage)
    ensures DisplayedCustomerId(Some(c), store) == Some(c.customerId)
    ensures DisplayedCustomerId(None, store).Some? <==> CustomerIdKey in store.items
  {
  }

  /** The ticket page a new ticket navigates to; `enc` is `encodeURIComponent`, applied to the ticket id only. */
  function TicketPagePath(siteSlug: string, roomSlug: string, ticketId: string, enc: string -> string): (r: string)
    ensures var p := MyTicketPage.RoomPath(siteSlug, roomSlug);
      |p| <= |r| && r[..|p|] == p && r[|p|..] == "/mine?ticketId=" + enc(ticketId)
  {
    "/s/" + siteSlug + "/r/" + roomSlug + "/mine?ticketId=" + enc(ticketId)
  }

  /** Within one room, the ticket page's address names the ticket: distinct tickets get distinct addresses. */
  lemma TicketPagePathNamesTicket(siteSlug: string, roomSlug: string, t1: string, t2: string, enc: string -> string)
    requires IsUriComponentEncoder(enc)
    ensures TicketPagePath(siteSlug, roomSlug, t1, enc) == TicketPagePath(siteSlug, roomSlug, t2, enc) <==> t1 == t2
  {
    var p := MyTicketPage.RoomPath(siteSlug, roomSlug);
    var q := "/mine?ticketId=";
    if TicketPagePath(siteSlug, roomSlug, t1, enc) == TicketPagePath(siteSlug, roomSlug, t2, enc) {
      assert q + enc(t1) == q + enc(t2);
      assert enc(t1) == (q + enc(t1))[|q|..];
      assert enc(t2) == (q + enc(t2))[|q|..];
    }
  }

  /** The customer room page: the effect's `unsub`, the loaded-view flags and the refresh log. */
  class CustomerRoomEffect {
    const siteSlug: string
    const roomSlug: string
    const hub: QueueHubClient
    const listener: ListenerId
    /** The effect got past `if (!siteSlug || !roomSlug) return`. */
    const active: bool
    var joinPending: bool
    var unsub: Option<Unsubscriber>
    /** The cleanup has run; the page keeps no flag for it, so nothing reads this. */
    ghost var tornDown: bool
    var refreshes: seq<int>
    var data: Option<RoomStatusResponse>
    var error: Option<string>
    var loading: bool
    /** The logged-in customer, set by `handleLogin`. */
    var customer: Option<CustomerLoginResponse>

    ghost predicate Valid()
      reads this
    {
      && (active <==> siteSlug != "" && roomSlug != "")
      && (!active ==> !joinPending && unsub == None)
      && (unsub.Some? ==> unsub.value == Unsubscriber(listener))
    }

    /** Mount: the immediate refresh and the start of the asynchronous join. */
    constructor (siteSlug: string, roomSlug: string, hub: QueueHubClient, listener: ListenerId, now: int)
      ensures Valid()
      ensures this.siteSlug == siteSlug && this.roomSlug == roomSlug && this.hub == hub && this.listener == listener
      ensures active <==> siteSlug != "" && roomSlug != ""
      ensures joinPending == active && unsub == None && !tornDown
      ensures refreshes == (if active then [now] else [])
      ensures data == None && error == None && loading == active && customer == None
    {
      this.siteSlug := siteSlug;
      this.roomSlug := roomSlug;
      this.hub := hub;
      this.listener := listener;
      var on := siteSlug != "" && roomSlug != "";
      active := on;
      joinPending := on;
      unsub := None;
      tornDown := false;
      refreshes := if on then [now] else [];
      data := None;
      error := None;
      loading := on;
      customer := None;
    }

    /**
     * `refresh()` up to its `await` (also the page's manual button): the view
     * shows it is loading and clears the error; `LoadSettles` finishes it.
     */
    method Refresh(now: int)
      modifies this
      ensures refreshes == old(refreshes) + [now]
      ensures loading && error == None && data == old(data) && customer == old(customer)
      ensures joinPending == old(joinPending) && unsub == old(unsub) && tornDown == old(tornDown)
    {
      refreshes := refreshes + [now];
      loading := true;
      error := None;
    }

    /**
     * The awaited `getRoomStatus` of a `refresh()` settles: the response
     * replaces the data, or the error is shown and the data kept; loading ends.
     */
    method LoadSettles(res: Response<RoomStatusResponse>)
      modifies this
      ensures !loading
      ensures data == (if res.Ok? then Some(res.value) else old(data))
      ensures error == (if res.Ok? then old(error) else Some(ErrorText(res.thrown, LoadFailedText)))
      ensures refreshes == old(refreshes) && customer == old(customer)
      ensures joinPending == old(joinPending) && unsub == old(unsub) && tornDown == old(tornDown)
    {
      if res.Ok? {
        data := Some(res.value);
      } else {
        error := Some(ErrorText(res.thrown, LoadFailedText));
      }
      loading := false;
    }

    /** The registered listener receives a notification: a matching one refreshes, even after the cleanup. */
    method Notify(now: int, payload: QueueUpdatedPayload)
      requires Valid() && listener in hub.queueListeners
      modifies this
      ensures Valid()
      ensures refreshes == old(refreshes) + (if MatchesRoom(payload, siteSlug, roomSlug) then [now] else [])
      ensures joinPending == old(joinPending) && unsub == old(unsub) && tornDown == old(tornDown)
      ensures data == old(data) && customer == old(customer)
      ensures if MatchesRoom(payload, siteSlug, roomSlug) then loading && error == None
        else loading == old(loading) && error == old(error)
    {
      if payload.siteSlug == siteSlug && payload.roomSlug == Some(roomSlug) {
        Refresh(now);
      }
    }

    /** The asynchronous join completes: `await hub.joinRoom(siteSlug, roomSlug)`, then `onQueueUpdated`. */
    method Subscribe(env: ConnectEnv, invokeOk: bool) returns (r: Outcome<HubError>)
      requires Valid() && joinPending && hub.Valid() && env.WellFormed()
      modifies this, hub.Repr()
      ensures Valid() && hub.Valid() && fresh(hub.Repr() - old(hub.Repr()))
      ensures !joinPending
      ensures hub.connection != null && (old(hub.connection) != null ==> hub.connection == old(hub.connection))
      ensures hub.State() == StartState(old(hub.State()), env)
      ensures hub.StartCalls() == old(hub.StartCalls()) + (if StartCallsConnStart(old(hub.State())) then 1 else 0)
      ensures r == JoinResult(StartResult(old(hub.State()), env), invokeOk)
      ensures hub.Invoked() == old(hub.Invoked()) +
        (if StartResult(old(hub.State()), env) == Pass then [Invocation.JoinRoom(siteSlug, roomSlug)] else [])
      ensures hub.joinedRooms ==
        (if r == Pass then Add(old(hub.joinedRooms), RoomKey(siteSlug, roomSlug)) else old(hub.joinedRooms))
      ensures hub.queueListeners == (if r == Pass then Add(old(hub.queueListeners), listener) else old(hub.queueListeners))
      ensures unsub == (if r == Pass then Some(Unsubscriber(listener)) else old(unsub))
      ensures hub.joinedSites == old(hub.joinedSites)
      ensures tornDown == old(tornDown) && refreshes == old(refreshes)
      ensures data == old(data) && error == old(error) && loading == old(loading) && customer == old(customer)
    {
      joinPending := false;
      r := hub.JoinRoom(siteSlug, roomSlug, env, invokeOk);
      if r.Fail? {
        return;
      }
      var u := hub.OnQueueUpdated(listener);
      unsub := Some(u);
    }

    /** The effect's cleanup: `if (unsub) unsub()`. */
    method Unmount()
      requires Valid() && hub.Valid()
      modifies this, hub
      ensures Valid() && hub.Valid()
      ensures tornDown == (old(tornDown) || active)
      ensures hub.queueListeners ==
        (if old(unsub).Some? then Delete(old(hub.queueListeners), listener) else old(hub.queueListeners))
      ensures hub.connection == old(hub.connection)
      ensures hub.joinedRooms == old(hub.joinedRooms) && hub.joinedSites == old(hub.joinedSites)
      ensures joinPending == old(joinPending) && unsub == old(unsub) && refreshes == old(refreshes)
      ensures data == old(data) && error == old(error) && loading == old(loading) && customer == old(customer)
    {
      if !active {
        return;
      }
      tornDown := true;
      if unsub.Some? {
        hub.Unsubscribe(unsub.value);
      }
    }

    /**
     * `handleLogin()` once `loginCustomer` settles: on success the customer is
     * kept and its id stored, so it becomes the id the page shows and sends.
     */
    method HandleLogin(store: LocalStorage, response: Response<CustomerLoginResponse>)
      modifies this, store
      ensures customer == (if response.Ok? then Some(response.value) else old(customer))
      ensures error == (if response.Ok? then None else Some(ErrorText(response.thrown, LoginFailedText)))
      ensures response.Ok? ==> DisplayedCustomerId(customer, store) == Some(response.value.customerId)
      ensures response.Ok? ==> GetCustomerId(store) == Some(response.value.customerId)
      ensures response.Threw? ==> store.items == old(store.items)
      ensures forall k :: k != CustomerIdKey ==> store.GetItem(k) == old(store.GetItem(k))
      ensures data == old(data) && loading == old(loading) && refreshes == old(refreshes)
      ensures joinPending == old(joinPending) && unsub == old(unsub) && tornDown == old(tornDown)
    {
      error := None;
      if response.Ok? {
        customer := Some(response.value);
        SetCustomerId(store, response.value.customerId);
      } else {
        error := Some(ErrorText(response.thrown, LoginFailedText));
      }
    }

    /**
     * `handleTakeTicket()` once `takeTicket` settles. `request` is what the page
     * sends: the room and the customer id it shows. On success the ticket is
     * stored for the room and the page navigates to it; on failure the error is shown.
     */
    method HandleTakeTicket(store: LocalStorage, response: Response<string>, enc: string -> string)
      returns (request: Option<TakeTicketRequest>, navigateTo: Option<string>)
      requires Valid()
      modifies this, store
      ensures Valid()
      ensures request ==
        (if active then Some(TakeTicketRequest(siteSlug, roomSlug, old(DisplayedCustomerId(customer, store)))) else None)
      ensures !active ==> navigateTo == None && store.items == old(store.items)
      ensures !active ==> error == old(error) && loading == old(loading)
      ensures active && response.Ok? ==>
        && navigateTo == Some(TicketPagePath(siteSlug, roomSlug, response.value, enc))
        && GetTicketId(store, siteSlug, roomSlug) == Some(response.value)
        && error == None
      ensures active && response.Threw? ==>
        navigateTo == None && store.items == old(store.items) && error == Some(ErrorText(response.thrown, TakeTicketFailedText))
      ensures forall k :: k != TicketKey(siteSlug, roomSlug) ==> store.GetItem(k) == old(store.GetItem(k))
      ensures active ==> !loading
      ensures joinPending == old(joinPending) && unsub == old(unsub) && tornDown == old(tornDown)
      ensures refreshes == old(refreshes) && data == old(data) && customer == old(customer)
    {
      request, navigateTo := None, None;
      if siteSlug == "" || roomSlug == "" {
        return;
      }
      loading := true;
      error := None;
      request := Some(TakeTicketRequest(siteSlug, roomSlug, DisplayedCustomerId(customer, store)));
      if response.Ok? {
        SetTicketId(store, siteSlug, roomSlug, response.value);
        navigateTo := Some(TicketPagePath(siteSlug, roomSlug, response.value, enc));
      } else {
        error := Some(ErrorText(response.thrown, TakeTicketFailedText));
      }
      loading := false;
    }
  }

  /**
   * The cleanup runs before `joinRoom` resolves: `unsub` is still null, so the
   * listener registered afterwards is never removed, and a later matching
   * notification still refreshes the unmounted page.
   */
  method LateJoinAfterUnmount(siteSlug: string, roomSlug: string, hub: QueueHubClient, listener: ListenerId,
                              mountTime: int, env: ConnectEnv, notifyTime: int)
    returns (page: CustomerRoomEffect, joined: Outcome<HubError>)
    requires siteSlug != "" && roomSlug != ""
    requires hub.Valid() && env.WellFormed() && listener !in hub.queueListeners
    modifies hub.Repr()
    ensures page.tornDown
    ensures joined == Pass ==>
      && listener in hub.queueListeners
      && page.refreshes == [mountTime, notifyTime]
    ensures joined.Fail? ==> listener !in hub.queueListeners && page.refreshes == [mountTime]
  {
    page := new CustomerRoomEffect(siteSlug, roomSlug, hub, listener, mountTime);
    page.Unmount();
    joined := page.Subscribe(env, true);
    if joined == Pass {
      page.Notify(notifyTime, QueueUpdatedPayload(siteSlug, Some(roomSlug)));
    }
  }
}
