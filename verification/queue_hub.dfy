/**
 * The realtime client of src/realtime/queueHub.ts: one lazily created SignalR
 * connection, the registry of joined rooms and sites that is replayed after a
 * reconnect, and the set of `QueueUpdated` listeners.
 *
 * The SignalR connection is abstract: its state is a field that the library
 * changes, and the outcome of `conn.start()` and of each `conn.invoke(...)`
 * is a parameter. Every invoke is appended to a ghost trace.
 */
module QueueHub {
  import opened Wrappers
  import opened JsString
  import opened OrderedSet
  import Config

  /** SignalR's `HubConnectionState`. */
  datatype ConnState = Disconnected | Connecting | Connected | Disconnecting | Reconnecting

  /** Why a hub operation rejects. */
  datatype HubError =
    | ConnectionFailed   // 'Connection failed': the awaited connection went Disconnected
    | ConnectionTimeout  // 'Connection timeout': still not settled after 10 s
    | StartFailed        // `conn.start()` rejected
    | InvokeFailed       // `conn.invoke(...)` rejected

  /** `QueueUpdatedPayload`: `roomSlug` is optional. */
  datatype QueueUpdatedPayload = QueueUpdatedPayload(siteSlug: string, roomSlug: Option<string>)

  /** A server method called through `conn.invoke`. */
  datatype Invocation = JoinRoom(site: string, room: string) | JoinSite(siteSlug: string)

  /** A listener function, identified by an integer handle. */
  type ListenerId = int

  /** One call of a listener with a payload. */
  datatype Delivery = Delivery(listener: ListenerId, payload: QueueUpdatedPayload)

  /** The function `onQueueUpdated` returns: it deletes the listener it closes over. */
  datatype Unsubscriber = Unsubscriber(listener: ListenerId)

  /** While the connection is Connecting, `start` polls its state every 100 ms and gives up after 10 s. */
  const PollIntervalMs: int := 100
  const WaitTimeoutMs: int := 10000
  const PollsBeforeTimeout: int := WaitTimeoutMs / PollIntervalMs

  /**
   * What the environment does during one `start()`: whether `conn.start()`
   * succeeds, and the state each 100 ms poll observes while waiting.
   */
  datatype ConnectEnv = ConnectEnv(startOk: bool, polls: seq<ConnState>) {
    predicate WellFormed() {
      |polls| == PollsBeforeTimeout
    }
  }

  predicate Settled(s: ConnState) {
    s == Connected || s == Disconnected
  }

  predicate NoneSettledBefore(polls: seq<ConnState>, i: int)
    requires 0 <= i <= |polls|
  {
    forall j :: 0 <= j < i ==> !Settled(polls[j])
  }

  /** The settlement of the wait for a Connecting connection, given what the polls observe. */
  function WaitOutcome(polls: seq<ConnState>): Outcome<HubError> {
    if polls == [] then Fail(ConnectionTimeout)
    else if polls[0] == Connected then Pass
    else if polls[0] == Disconnected then Fail(ConnectionFailed)
    else WaitOutcome(polls[1..])
  }

  /**
   * The wait resolves when the first settled poll sees Connected, rejects with
   * 'Connection failed' when it sees Disconnected, and rejects with
   * 'Connection timeout' when no poll sees a settled state.
   */
  lemma {:induction false} WaitOutcomeMeaning(polls: seq<ConnState>)
    ensures WaitOutcome(polls) == Pass <==>
      exists i :: 0 <= i < |polls| && polls[i] == Connected && NoneSettledBefore(polls, i)
    ensures WaitOutcome(polls) == Fail(ConnectionFailed) <==>
      exists i :: 0 <= i < |polls| && polls[i] == Disconnected && NoneSettledBefore(polls, i)
    ensures WaitOutcome(polls) == Fail(ConnectionTimeout) <==>
      forall i :: 0 <= i < |polls| ==> !Settled(polls[i])
  {
    if polls != [] {
      WaitOutcomeMeaning(polls[1..]);
      if !Settled(polls[0]) {
        forall i | 0 < i <= |polls|
          ensures NoneSettledBefore(polls, i) <==> NoneSettledBefore(polls[1..], i - 1)
        {
          assert forall j :: 0 < j < i ==> polls[j] == polls[1..][j - 1];
        }
        if exists i :: 0 <= i < |polls[1..]| && polls[1..][i] == Connected && NoneSettledBefore(polls[1..], i) {
          var i :| 0 <= i < |polls[1..]| && polls[1..][i] == Connected && NoneSettledBefore(polls[1..], i);
          assert polls[i + 1] == Connected && NoneSettledBefore(polls, i + 1);
        }
        if exists i :: 0 <= i < |polls[1..]| && polls[1..][i] == Disconnected && NoneSettledBefore(polls[1..], i) {
          var i :| 0 <= i < |polls[1..]| && polls[1..][i] == Disconnected && NoneSettledBefore(polls[1..], i);
          assert polls[i + 1] == Disconnected && NoneSettledBefore(polls, i + 1);
        }
        assert (forall i :: 0 <= i < |polls| ==> !Settled(polls[i])) <==>
               (forall i :: 0 <= i < |polls[1..]| ==> !Settled(polls[1..][i]));
      } else {
        assert NoneSettledBefore(polls, 0);
        assert !(forall i :: 0 <= i < |polls| ==> !Settled(polls[i]));
      }
    }
  }

  /** The `setInterval` poll loop of `start()` while the connection is Connecting. */
  method AwaitTransition(polls: seq<ConnState>) returns (r: Outcome<HubError>)
    ensures r == WaitOutcome(polls)
  {
    var i := 0;
    while i < |polls|
      invariant 0 <= i <= |polls|
      invariant WaitOutcome(polls[i..]) == WaitOutcome(polls)
    {
      if polls[i] == Connected {
        return Pass;
      } else if polls[i] == Disconnected {
        return Fail(ConnectionFailed);
      }
      assert polls[i..][1..] == polls[i + 1..];
      i := i + 1;
    }
    return Fail(ConnectionTimeout);
  }

  /** How `start()` settles, by the connection state it finds. */
  function StartResult(s: ConnState, env: ConnectEnv): Outcome<HubError> {
    match s
    case Connected => Pass
    case Connecting => WaitOutcome(env.polls)
    case _ => if env.startOk then Pass else Fail(StartFailed)
  }

  /**
   * The connection state after `start()`. A timed-out wait leaves the state the
   * last poll saw. A `conn.start()` that rejects is taken to leave the connection
   * Disconnected, whatever state it was called from (Disconnected, Disconnecting
   * or Reconnecting): the library, not queueHub.ts, decides that state.
   */
  function StartState(s: ConnState, env: ConnectEnv): ConnState
    requires env.WellFormed()
  {
    match s
    case Connected => Connected
    case Connecting =>
      (match WaitOutcome(env.polls)
       case Pass => Connected
       case Fail(ConnectionFailed) => Disconnected
       case Fail(_) => env.polls[|env.polls| - 1])
    case _ => if env.startOk then Connected else Disconnected
  }

  /** Whether `start()` calls `conn.start()`: only when the state is neither Connected nor Connecting. */
  predicate StartCallsConnStart(s: ConnState) {
    s != Connected && s != Connecting
  }

  /** A `start()` that resolves leaves the connection Connected, so a second `start()` is a no-op. */
  lemma StartPassLeavesConnected(s: ConnState, env: ConnectEnv)
    requires env.WellFormed()
    ensures StartResult(s, env) == Pass ==> StartState(s, env) == Connected
    ensures StartResult(Connected, env) == Pass && StartState(Connected, env) == Connected
    ensures !StartCallsConnStart(Connected) && !StartCallsConnStart(Connecting)
  {
  }

  /** The result of `joinRoom`/`joinSite`: the `start()` rejection, else the invoke's. */
  function JoinResult(started: Outcome<HubError>, invokeOk: bool): Outcome<HubError> {
    if started.Fail? then started else if invokeOk then Pass else Fail(InvokeFailed)
  }

  /** The key under which `joinRoom` records a room. */
  function RoomKey(siteSlug: string, roomSlug: string): string {
    siteSlug + "|" + roomSlug
  }

  /** `const [siteSlug, roomSlug] = roomKey.split('|'); if (siteSlug && roomSlug) ...` */
  function ParseRoomKey(key: string): Option<(string, string)> {
    var parts := Split(key, '|');
    if |parts| >= 2 && parts[0] != "" && parts[1] != "" then Some((parts[0], parts[1])) else None
  }

  /** A recorded room whose slugs contain no '|' parses back to its slugs; an empty slug is skipped. */
  lemma RoomKeyRoundTrip(siteSlug: string, roomSlug: string)
    requires '|' !in siteSlug && '|' !in roomSlug
    ensures ParseRoomKey(RoomKey(siteSlug, roomSlug)) ==
      if siteSlug != "" && roomSlug != "" then Some((siteSlug, roomSlug)) else None
  {
    SplitAtFirstSeparator(siteSlug, '|', roomSlug);
    SplitWithoutSeparator(roomSlug, '|');
    assert RoomKey(siteSlug, roomSlug) == siteSlug + ['|'] + roomSlug;
  }

  /** A room slug containing '|' is replayed as the room named by its first piece. */
  lemma PipeInRoomSlugRejoinsAnotherRoom()
    ensures ParseRoomKey(RoomKey("a", "b|c")) == Some(("a", "b"))
  {
    SplitAtFirstSeparator("a", '|', "b|c");
    SplitAtFirstSeparator("b", '|', "c");
    assert RoomKey("a", "b|c") == "a" + ['|'] + "b|c";
    assert "b|c" == "b" + ['|'] + "c";
  }

  /** The JoinRoom call replayed for one recorded room key (none when the key is skipped). */
  function RejoinRoomCall(key: string): seq<Invocation> {
    var parsed := ParseRoomKey(key);
    if parsed.Some? then [JoinRoom(parsed.value.0, parsed.value.1)] else []
  }

  /** The JoinRoom calls replayed for the recorded rooms, in insertion order. */
  function RejoinRoomCalls(keys: seq<string>): (calls: seq<Invocation>)
    ensures |calls| <= |keys|
    ensures forall i :: 0 <= i < |calls| ==> calls[i].JoinRoom?
  {
    if keys == [] then [] else RejoinRoomCalls(keys[..|keys| - 1]) + RejoinRoomCall(keys[|keys| - 1])
  }

  /** The JoinSite calls replayed for the recorded sites, in insertion order. */
  function RejoinSiteCalls(sites: seq<string>): (calls: seq<Invocation>)
    ensures |calls| == |sites|
    ensures forall i :: 0 <= i < |sites| ==> calls[i] == JoinSite(sites[i])
  {
    if sites == [] then [] else RejoinSiteCalls(sites[..|sites| - 1]) + [JoinSite(sites[|sites| - 1])]
  }

  /** Every invoke the `onreconnected` handler issues: all rooms first, then all sites. */
  function ReplayCalls(rooms: seq<string>, sites: seq<string>): seq<Invocation> {
    RejoinRoomCalls(rooms) + RejoinSiteCalls(sites)
  }

  /** Replay re-joins every room before any site. */
  lemma ReplayRoomsBeforeSites(rooms: seq<string>, sites: seq<string>)
    ensures var calls := ReplayCalls(rooms, sites);
      forall i, j :: 0 <= i < j < |calls| && calls[i].JoinSite? ==> calls[j].JoinSite?
  {
    var calls := ReplayCalls(rooms, sites);
    var n := |RejoinRoomCalls(rooms)|;
    assert forall i :: 0 <= i < n ==> calls[i] == RejoinRoomCalls(rooms)[i];
    assert forall i :: n <= i < |calls| ==> calls[i] == RejoinSiteCalls(sites)[i - n];
  }

  /** Every recorded room with usable slugs is re-joined by the replay. */
  lemma {:induction false} ReplayRejoinsEveryRoom(rooms: seq<string>, sites: seq<string>, siteSlug: string, roomSlug: string)
    requires RoomKey(siteSlug, roomSlug) in rooms
    requires siteSlug != "" && roomSlug != "" && '|' !in siteSlug && '|' !in roomSlug
    ensures JoinRoom(siteSlug, roomSlug) in ReplayCalls(rooms, sites)
  {
    RejoinRoomCallsCover(rooms, siteSlug, roomSlug);
  }

  lemma {:induction false} RejoinRoomCallsCover(rooms: seq<string>, siteSlug: string, roomSlug: string)
    requires RoomKey(siteSlug, roomSlug) in rooms
    requires siteSlug != "" && roomSlug != "" && '|' !in siteSlug && '|' !in roomSlug
    ensures JoinRoom(siteSlug, roomSlug) in RejoinRoomCalls(rooms)
    decreases |rooms|
  {
    var last := rooms[|rooms| - 1];
    if last == RoomKey(siteSlug, roomSlug) {
      RoomKeyRoundTrip(siteSlug, roomSlug);
    } else {
      assert RoomKey(siteSlug, roomSlug) in rooms[..|rooms| - 1] by {
        assert rooms == rooms[..|rooms| - 1] + [last];
      }
      RejoinRoomCallsCover(rooms[..|rooms| - 1], siteSlug, roomSlug);
    }
  }

  lemma RejoinRoomCallsSnoc(keys: seq<string>, i: int)
    requires 0 <= i < |keys|
    ensures RejoinRoomCalls(keys[..i + 1]) == RejoinRoomCalls(keys[..i]) + RejoinRoomCall(keys[i])
  {
    assert keys[..i + 1][..i] == keys[..i];
  }

  lemma RejoinSiteCallsSnoc(sites: seq<string>, j: int)
    requires 0 <= j < |sites|
    ensures RejoinSiteCalls(sites[..j + 1]) == RejoinSiteCalls(sites[..j]) + [JoinSite(sites[j])]
  {
    assert sites[..j + 1][..j] == sites[..j];
  }

  /** The invoke the replay makes for a recorded key that parses. */
  function RejoinOf(key: string): Invocation
    requires ParseRoomKey(key).Some?
  {
    JoinRoom(ParseRoomKey(key).value.0, ParseRoomKey(key).value.1)
  }

  /** When every recorded key parses, the replayed rooms follow insertion order one to one. */
  lemma {:induction false} RejoinRoomCallsInOrder(rooms: seq<string>)
    requires forall k :: k in rooms ==> ParseRoomKey(k).Some?
    ensures |RejoinRoomCalls(rooms)| == |rooms|
    ensures forall i :: 0 <= i < |rooms| ==> RejoinRoomCalls(rooms)[i] == RejoinOf(rooms[i])
    decreases |rooms|
  {
    if rooms != [] {
      var init := rooms[..|rooms| - 1];
      var last := rooms[|rooms| - 1];
      assert forall k :: k in init ==> k in rooms;
      RejoinRoomCallsInOrder(init);
      assert last in rooms;
      assert RejoinRoomCall(last) == [RejoinOf(last)];
      assert RejoinRoomCalls(rooms) == RejoinRoomCalls(init) + [RejoinOf(last)];
      assert forall i :: 0 <= i < |init| ==> rooms[i] == init[i];
    }
  }

  /** Every recorded site is re-joined by the replay. */
  lemma ReplayRejoinsEverySite(rooms: seq<string>, sites: seq<string>, siteSlug: string)
    requires siteSlug in sites
    ensures JoinSite(siteSlug) in ReplayCalls(rooms, sites)
  {
    var i :| 0 <= i < |sites| && sites[i] == siteSlug;
    assert RejoinSiteCalls(sites)[i] == JoinSite(siteSlug);
  }

  /** The calls the `QueueUpdated` handler makes: each registered listener once, in insertion order. */
  function Deliveries(listeners: seq<ListenerId>, payload: QueueUpdatedPayload): (calls: seq<Delivery>)
    ensures |calls| == |listeners|
    ensures forall i :: 0 <= i < |calls| ==> calls[i].listener == listeners[i] && calls[i].payload == payload
  {
    if listeners == [] then []
    else Deliveries(listeners[..|listeners| - 1], payload) + [Delivery(listeners[|listeners| - 1], payload)]
  }

  /** Each registered listener is called exactly once, and nothing else is called. */
  lemma {:induction false} DeliveredExactlyOnce(listeners: seq<ListenerId>, payload: QueueUpdatedPayload, l: ListenerId)
    requires NoDup(listeners)
    ensures multiset(Deliveries(listeners, payload))[Delivery(l, payload)] == if l in listeners then 1 else 0
    ensures forall d :: d in Deliveries(listeners, payload) ==> d.payload == payload && d.listener in listeners
    decreases |listeners|
  {
    if listeners != [] {
      var init := listeners[..|listeners| - 1];
      var last := listeners[|listeners| - 1];
      assert NoDup(init);
      DeliveredExactlyOnce(init, payload, l);
      assert listeners == init + [last];
      assert last !in init;
      assert forall d :: d in Deliveries(listeners, payload) ==> d in Deliveries(init, payload) || d == Delivery(last, payload);
    }
  }

  /** A SignalR `HubConnection`, abstracted to its state and the calls made on it. */
  class HubConnection {
    const url: string
    var state: ConnState
    ghost var invoked: seq<Invocation>
    ghost var startCalls: nat

    constructor (url: string)
      ensures this.url == url && state == Disconnected && invoked == [] && startCalls == 0
    {
      this.url := url;
      state := Disconnected;
      invoked := [];
      startCalls := 0;
    }

    /** `conn.start()`; `ok` says whether the handshake succeeds. */
    method Start(ok: bool) returns (r: bool)
      modifies this
      ensures r == ok
      ensures state == (if ok then Connected else Disconnected)
      ensures invoked == old(invoked) && startCalls == old(startCalls) + 1
    {
      state := if ok then Connected else Disconnected;
      startCalls := startCalls + 1;
      r := ok;
    }

    /** `conn.invoke(...)`; `ok` says whether the server call succeeds. */
    method Invoke(call: Invocation, ok: bool) returns (r: bool)
      modifies this
      ensures r == ok
      ensures invoked == old(invoked) + [call]
      ensures state == old(state) && startCalls == old(startCalls)
    {
      invoked := invoked + [call];
      r := ok;
    }

    /** One pass of the `onreconnected` room loop: re-joins the room a key names, if it names one. */
    method Rejoin(roomKey: string, accepts: Invocation -> bool)
      modifies this
      ensures invoked == old(invoked) + RejoinRoomCall(roomKey)
      ensures state == old(state) && startCalls == old(startCalls)
    {
      var parsed := ParseRoomKey(roomKey);
      if parsed.Some? {
        var call := Invocation.JoinRoom(parsed.value.0, parsed.value.1);
        var _ := Invoke(call, accepts(call));
      }
    }

    /** The `onreconnected` loop over the recorded rooms, each invoke's failure ignored. */
    method RejoinRooms(rooms: seq<string>, accepts: Invocation -> bool)
      modifies this
      ensures invoked == old(invoked) + RejoinRoomCalls(rooms)
      ensures state == old(state) && startCalls == old(startCalls)
    {
      var i := 0;
      while i < |rooms|
        invariant 0 <= i <= |rooms|
        invariant invoked == old(invoked) + RejoinRoomCalls(rooms[..i])
        invariant state == old(state) && startCalls == old(startCalls)
      {
        RejoinRoomCallsSnoc(rooms, i);
        Rejoin(rooms[i], accepts);
        i := i + 1;
      }
      assert rooms[..i] == rooms;
    }

    /** The `onreconnected` loop over the recorded sites, each invoke's failure ignored. */
    method RejoinSites(sites: seq<string>, accepts: Invocation -> bool)
      modifies this
      ensures invoked == old(invoked) + RejoinSiteCalls(sites)
      ensures state == old(state) && startCalls == old(startCalls)
    {
      var j := 0;
      while j < |sites|
        invariant 0 <= j <= |sites|
        invariant invoked == old(invoked) + RejoinSiteCalls(sites[..j])
        invariant state == old(state) && startCalls == old(startCalls)
      {
        RejoinSiteCallsSnoc(sites, j);
        var call := Invocation.JoinSite(sites[j]);
        var _ := Invoke(call, accepts(call));
        j := j + 1;
      }
      assert sites[..j] == sites;
    }

    /** The library moves the connection to state `s` (as observed by a poll). */
    method Observe(s: ConnState)
      modifies this
      ensures state == s && invoked == old(invoked) && startCalls == old(startCalls)
    {
      state := s;
    }
  }

  /** `QueueHubClient`. */
  class QueueHubClient {
    const apiBaseUrl: string
    var connection: HubConnection?
    var joinedRooms: seq<string>
    var joinedSites: seq<string>
    var queueListeners: seq<ListenerId>

    /** The three collections are JavaScript `Set`s. */
    ghost predicate Valid()
      reads this
    {
      NoDup(joinedRooms) && NoDup(joinedSites) && NoDup(queueListeners)
    }

    ghost function Repr(): set<object>
      reads this
    {
      if connection == null then {this} else {this, connection}
    }

    /** The connection's state; a connection not yet built counts as Disconnected. */
    ghost function State(): ConnState
      reads this, connection
    {
      if connection == null then Disconnected else connection.state
    }

    /** The invokes made so far on the connection. */
    ghost function Invoked(): seq<Invocation>
      reads this, connection
    {
      if connection == null then [] else connection.invoked
    }

    ghost function StartCalls(): nat
      reads this, connection
    {
      if connection == null then 0 else connection.startCalls
    }

    constructor (apiBaseUrl: string)
      ensures Valid() && this.apiBaseUrl == apiBaseUrl && connection == null
      ensures joinedRooms == [] && joinedSites == [] && queueListeners == []
    {
      this.apiBaseUrl := apiBaseUrl;
      connection := null;
      joinedRooms, joinedSites, queueListeners := [], [], [];
    }

    /** `ensureConnection()`: builds the connection on first use and returns the same one afterwards. */
    method EnsureConnection() returns (conn: HubConnection)
      requires Valid()
      modifies this
      ensures Valid() && connection == conn
      ensures old(connection) != null ==> conn == old(connection)
      ensures old(connection) == null ==>
        fresh(conn) && conn.url == apiBaseUrl + "/hubs/queue" && conn.state == Disconnected
        && conn.invoked == [] && conn.startCalls == 0
      ensures joinedRooms == old(joinedRooms) && joinedSites == old(joinedSites)
      ensures queueListeners == old(queueListeners)
    {
      if connection != null {
        return connection;
      }
      conn := new HubConnection(apiBaseUrl + "/hubs/queue");
      connection := conn;
    }

    /** `start()`. */
    method Start(env: ConnectEnv) returns (r: Outcome<HubError>)
      requires Valid() && env.WellFormed()
      modifies Repr()
      ensures Valid() && fresh(Repr() - old(Repr()))
      ensures connection != null && (old(connection) != null ==> connection == old(connection))
      ensures r == StartResult(old(State()), env)
      ensures State() == StartState(old(State()), env)
      ensures Invoked() == old(Invoked())
      ensures StartCalls() == old(StartCalls()) + (if StartCallsConnStart(old(State())) then 1 else 0)
      ensures joinedRooms == old(joinedRooms) && joinedSites == old(joinedSites)
      ensures queueListeners == old(queueListeners)
    {
      var conn := EnsureConnection();
      if conn.state == Connected {
        return Pass;
      }
      if conn.state == Connecting {
        r := AwaitTransition(env.polls);
        if r == Pass {
          conn.Observe(Connected);
        } else if r == Fail(ConnectionFailed) {
          conn.Observe(Disconnected);
        } else {
          conn.Observe(env.polls[|env.polls| - 1]);
        }
        return;
      }
      var ok := conn.Start(env.startOk);
      r := if ok then Pass else Fail(StartFailed);
    }

    /** `onQueueUpdated(listener)`: registers the listener and returns its unsubscribe function. */
    method OnQueueUpdated(l: ListenerId) returns (unsub: Unsubscriber)
      requires Valid()
      modifies this
      ensures Valid() && unsub == Unsubscriber(l)
      ensures queueListeners == Add(old(queueListeners), l)
      ensures connection == old(connection) && joinedRooms == old(joinedRooms) && joinedSites == old(joinedSites)
    {
      queueListeners := Add(queueListeners, l);
      unsub := Unsubscriber(l);
    }

    /** Calling the function `onQueueUpdated` returned: deletes exactly its listener. */
    method Unsubscribe(unsub: Unsubscriber)
      requires Valid()
      modifies this
      ensures Valid()
      ensures queueListeners == Delete(old(queueListeners), unsub.listener)
      ensures connection == old(connection) && joinedRooms == old(joinedRooms) && joinedSites == old(joinedSites)
    {
      queueListeners := Delete(queueListeners, unsub.listener);
    }

    /** `joinRoom(siteSlug, roomSlug)`: the room is recorded only once JoinRoom succeeds. */
    method JoinRoom(siteSlug: string, roomSlug: string, env: ConnectEnv, invokeOk: bool) returns (r: Outcome<HubError>)
      requires Valid() && env.WellFormed()
      modifies Repr()
      ensures Valid() && fresh(Repr() - old(Repr()))
      ensures connection != null && (old(connection) != null ==> connection == old(connection))
      ensures r == JoinResult(StartResult(old(State()), env), invokeOk)
      ensures State() == StartState(old(State()), env)
      ensures Invoked() == old(Invoked()) +
        (if StartResult(old(State()), env) == Pass then [Invocation.JoinRoom(siteSlug, roomSlug)] else [])
      ensures StartCalls() == old(StartCalls()) + (if StartCallsConnStart(old(State())) then 1 else 0)
      ensures joinedRooms == (if r == Pass then Add(old(joinedRooms), RoomKey(siteSlug, roomSlug)) else old(joinedRooms))
      ensures joinedSites == old(joinedSites) && queueListeners == old(queueListeners)
    {
      r := Start(env);
      if r.Fail? {
        return;
      }
      var conn := EnsureConnection();
      var ok := conn.Invoke(Invocation.JoinRoom(siteSlug, roomSlug), invokeOk);
      if !ok {
        return Fail(InvokeFailed);
      }
      joinedRooms := Add(joinedRooms, RoomKey(siteSlug, roomSlug));
    }

    /** `joinSite(siteSlug)`: the site is recorded only once JoinSite succeeds. */
    method JoinSite(siteSlug: string, env: ConnectEnv, invokeOk: bool) returns (r: Outcome<HubError>)
      requires Valid() && env.WellFormed()
      modifies Repr()
      ensures Valid() && fresh(Repr() - old(Repr()))
      ensures connection != null && (old(connection) != null ==> connection == old(connection))
      ensures r == JoinResult(StartResult(old(State()), env), invokeOk)
      ensures State() == StartState(old(State()), env)
      ensures Invoked() == old(Invoked()) +
        (if StartResult(old(State()), env) == Pass then [Invocation.JoinSite(siteSlug)] else [])
      ensures StartCalls() == old(StartCalls()) + (if StartCallsConnStart(old(State())) then 1 else 0)
      ensures joinedSites == (if r == Pass then Add(old(joinedSites), siteSlug) else old(joinedSites))
      ensures joinedRooms == old(joinedRooms) && queueListeners == old(queueListeners)
    {
      r := Start(env);
      if r.Fail? {
        return;
      }
      var conn := EnsureConnection();
      var ok := conn.Invoke(Invocation.JoinSite(siteSlug), invokeOk);
      if !ok {
        return Fail(InvokeFailed);
      }
      joinedSites := Add(joinedSites, siteSlug);
    }

    /** The `QueueUpdated` handler: `queueListeners.forEach((fn) => fn(payload))`. */
    method Dispatch(payload: QueueUpdatedPayload) returns (calls: seq<Delivery>)
      ensures calls == Deliveries(queueListeners, payload)
    {
      calls := [];
      var i := 0;
      while i < |queueListeners|
        invariant 0 <= i <= |queueListeners|
        invariant calls == Deliveries(queueListeners[..i], payload)
      {
        assert queueListeners[..i + 1][..i] == queueListeners[..i];
        calls := calls + [Delivery(queueListeners[i], payload)];
        i := i + 1;
      }
      assert queueListeners[..i] == queueListeners;
    }

    /**
     * The `onreconnected` handler: re-invokes JoinRoom for every recorded room,
     * then JoinSite for every recorded site, ignoring each failure.
     * `accepts` says which invokes the server accepts; the calls made do not depend on it.
     */
    method OnReconnected(accepts: Invocation -> bool)
      requires Valid() && connection != null
      modifies connection
      ensures connection.invoked == old(connection.invoked) + ReplayCalls(joinedRooms, joinedSites)
      ensures connection.state == old(connection.state) && connection.startCalls == old(connection.startCalls)
      ensures joinedRooms == old(joinedRooms) && joinedSites == old(joinedSites)
      ensures queueListeners == old(queueListeners)
    {
      connection.RejoinRooms(joinedRooms, accepts);
      connection.RejoinSites(joinedSites, accepts);
    }
  }

  /** The module-level `singleton` behind `getQueueHub()`, built from `config.apiBaseUrl`. */
  class HubModule {
    const apiBaseUrl: string
    var singleton: QueueHubClient?

    /** Loading the module; `viteApiBaseUrl` is the build-time `VITE_API_BASE_URL`. */
    constructor (viteApiBaseUrl: Option<string>)
      ensures apiBaseUrl == Config.ApiBaseUrl(viteApiBaseUrl) && singleton == null
    {
      apiBaseUrl := Config.ApiBaseUrl(viteApiBaseUrl);
      singleton := null;
    }

    /** `getQueueHub()`: creates the client on the first call and returns that same client ever after. */
    method GetQueueHub() returns (hub: QueueHubClient)
      modifies this
      ensures singleton == hub
      ensures old(singleton) != null ==> hub == old(singleton)
      ensures old(singleton) == null ==>
        fresh(hub) && hub.Valid() && hub.apiBaseUrl == apiBaseUrl && hub.connection == null
        && hub.joinedRooms == [] && hub.joinedSites == [] && hub.queueListeners == []
    {
      if singleton == null {
        singleton := new QueueHubClient(apiBaseUrl);
      }
      hub := singleton;
    }
  }
}
