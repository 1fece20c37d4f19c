/**
 The WebSocket client of the TypeScript SDK (sdk/typescript/src/websocket.ts): one current socket,
 three timers, request ids, subscriptions and reconnect backoff, driven by socket events, timers,
 user calls and late callbacks in any order.

 `World` is what lies outside the client object: sockets and whether they still carry the client's
 handlers, armed timers, outstanding callbacks, the ids put on the wire and the delays asked for.
 */
module WebSocketClient {
  import opened Collections

  type Id = nat

  datatype Socket = Socket(attached: bool, open: bool)

  datatype Kind = ReconnectTimer | PingTimer | DisconnectTimer

  datatype World = World(
    sockets: map<Id, Socket>, armed: map<Id, Kind>, nextId: Id,
    latePings: nat, lateResponses: nat,
    sent: seq<nat>,           // request ids in the order they were used
    waits: seq<int>)          // reconnect delays since the last successful open

  datatype Options = Options(reconnectDelay: Option<int>, maxDelay: Option<int>, subscriptions: seq<string>)

  datatype Client = Client(
    socket: Option<Id>, pingTimer: Option<Id>, disconnectTimer: Option<Id>, reconnectTimer: Option<Id>,
    disconnectDetected: bool, attempts: nat, counter: nat,
    requests: map<nat, string>, active: map<string, string>, world: World)

  // ---- the methods, as functions of the client's state ----

  function Pow2(k: nat): (r: nat) { if k == 0 then 1 else 2 * Pow2(k - 1) }

  function Min(a: int, b: int): int { if a < b then a else b }

  function BaseDelay(o: Options): int { if o.reconnectDelay.Some? then o.reconnectDelay.value else 2000 }

  /** The delay of the reconnect that follows `k` consecutive ones. */
  function Backoff(o: Options, k: nat): int {
    if o.maxDelay.Some? then Min(BaseDelay(o) * Pow2(k), o.maxDelay.value) else BaseDelay(o)
  }

  predicate Disabled(o: Options) { o.reconnectDelay == Some(-1) }

  function Disarm(w: World, t: Option<Id>): World {
    if t.Some? then w.(armed := w.armed - {t.value}) else w
  }

  /** safeClose: the socket loses the client's handlers and is closed. */
  function SafeClose(w: World, k: Id): World { w.(sockets := w.sockets[k := Socket(false, false)]) }

  function Arm(w: World, kind: Kind): World {
    w.(armed := w.armed[w.nextId := kind], nextId := w.nextId + 1)
  }

  function ClearPing(c: Client): Client {
    c.(disconnectTimer := None, pingTimer := None, world := Disarm(Disarm(c.world, c.disconnectTimer), c.pingTimer))
  }

  function SchedulePing(c: Client): Client {
    var d := ClearPing(c);
    d.(disconnectTimer := Some(d.world.nextId), pingTimer := Some(d.world.nextId + 1),
       world := Arm(Arm(d.world, DisconnectTimer), PingTimer))
  }

  function DropSocket(c: Client): Client {
    if c.socket.Some? then c.(socket := None, world := SafeClose(c.world, c.socket.value)) else c
  }

  function ClearReconnect(c: Client): Client {
    c.(reconnectTimer := None, world := Disarm(c.world, c.reconnectTimer))
  }

  function Connect(c: Client): Client {
    var d := ClearReconnect(DropSocket(c));
    d.(socket := Some(d.world.nextId),
       world := d.world.(sockets := d.world.sockets[d.world.nextId := Socket(true, false)],
           nextId := d.world.nextId + 1))
  }

  function Reconnect(o: Options, c: Client): Client {
    var d := ClearPing(c);
    if d.reconnectTimer.Some? then d
    else if Disabled(o) then DropSocket(d)
    else
      d.(attempts := d.attempts + 1, reconnectTimer := Some(d.world.nextId),
         world := Arm(d.world, ReconnectTimer).(waits := d.world.waits + [Backoff(o, d.attempts)]))
  }

  /** sendRpc uses up an id whether or not there is a socket to send on. */
  function SendRpc(c: Client): Client {
    c.(counter := c.counter + 1, world := c.world.(sent := c.world.sent + [c.counter]))
  }

  function Subscribe(c: Client, names: seq<string>): Client {
    if names == [] then c
    else
      var d := Subscribe(c, names[..|names| - 1]);
      SendRpc(d).(requests := d.requests[d.counter := names[|names| - 1]])
  }

  function Opened(o: Options, c: Client, k: Id): Client {
    var d := SchedulePing(c.(attempts := 0, disconnectDetected := false,
                             world := c.world.(sockets := c.world.sockets[k := Socket(true, true)], waits := [])));
    Subscribe(d.(requests := map[], active := map[]), o.subscriptions)
  }

  /** A result message: it settles a subscription request if its id is one with a non-empty name. */
  function Result(c: Client, id: nat, subId: string): Client {
    if id in c.requests && c.requests[id] != "" then
      c.(requests := c.requests - {id}, active := c.active[subId := c.requests[id]])
    else c
  }

  function Close(c: Client): Client { DropSocket(ClearReconnect(ClearPing(c))) }

  function Initial(): Client {
    Connect(Client(None, None, None, None, false, 0, 1, map[], map[], World(map[], map[], 0, 0, 0, [], [])))
  }

  // ---- everything that can happen ----

  datatype Event =
    | SocketOpen(k: Id)
    | SocketClose(k: Id)
    | SocketPong(k: Id)
    | SocketRefused(k: Id)                        // unexpected-response: its body is still to come
    | SocketResult(k: Id, id: nat, subId: string)
    | TimerFires(t: Id)
    | PingAnswered(failed: bool)                  // the callback of an earlier ping, however late
    | ResponseRead                                // the body of an earlier refusal is complete
    | UserSend
    | UserClose

  predicate Attached(c: Client, k: Id) { k in c.world.sockets && c.world.sockets[k].attached }

  predicate Enabled(c: Client, e: Event) {
    match e
    case SocketOpen(k) => Attached(c, k)
    case SocketClose(k) => Attached(c, k)
    case SocketPong(k) => Attached(c, k)
    case SocketRefused(k) => Attached(c, k)
    case SocketResult(k, _, _) => Attached(c, k)
    case TimerFires(t) => t in c.world.armed
    case PingAnswered(_) => c.world.latePings > 0
    case ResponseRead => c.world.lateResponses > 0
    case UserSend => true
    case UserClose => true
  }

  function Next(o: Options, c: Client, e: Event): Client
    requires Enabled(c, e)
  {
    match e
    case SocketOpen(k) => Opened(o, c, k)
    case SocketClose(k) =>
      Reconnect(o, c.(disconnectDetected := true,
          world := c.world.(sockets := c.world.sockets[k := Socket(true, false)])))
    case SocketPong(_) => SchedulePing(c)
    case SocketRefused(_) => c.(world := c.world.(lateResponses := c.world.lateResponses + 1))
    case SocketResult(_, id, subId) => Result(c, id, subId)
    case TimerFires(t) =>
      var d := c.(world := Disarm(c.world, Some(t)));
      (match c.world.armed[t]
       case ReconnectTimer => Connect(d)
       case DisconnectTimer => Reconnect(o, d)
       case PingTimer =>
         if d.socket.Some? && d.socket.value in d.world.sockets && d.world.sockets[d.socket.value].open
         then d.(world := d.world.(latePings := d.world.latePings + 1)) else d)
    case PingAnswered(failed) =>
      var d := c.(world := c.world.(latePings := c.world.latePings - 1));
      if failed then Reconnect(o, d) else d
    case ResponseRead => Reconnect(o, c.(world := c.world.(lateResponses := c.world.lateResponses - 1)))
    case UserSend => SendRpc(c)
    case UserClose => Close(c)
  }

  ghost predicate ValidFrom(o: Options, c: Client, run: seq<Event>)
    decreases |run|
  {
    run == [] || (Enabled(c, run[0]) && ValidFrom(o, Next(o, c, run[0]), run[1..]))
  }

  ghost function After(o: Options, c: Client, run: seq<Event>): Client
    requires ValidFrom(o, c, run)
    decreases |run|
  {
    if run == [] then c else After(o, Next(o, c, run[0]), run[1..])
  }

  // ---- the invariant ----

  /** The timer field that holds a timer of each kind. */
  function Holder(c: Client, kind: Kind): Option<Id> {
    match kind
    case ReconnectTimer => c.reconnectTimer
    case PingTimer => c.pingTimer
    case DisconnectTimer => c.disconnectTimer
  }

  /** Only the current socket carries handlers, and only the timers the client holds are armed. */
  predicate OneOfEach(c: Client) {
    && (forall k <- c.world.sockets :: c.world.sockets[k].attached ==> c.socket == Some(k))
    && (forall t <- c.world.armed :: Holder(c, c.world.armed[t]) == Some(t))
    && (c.socket.Some? ==> c.socket.value in c.world.sockets)
    && (forall k <- c.world.sockets :: k < c.world.nextId) && (forall t <- c.world.armed :: t < c.world.nextId)
  }

  predicate IdsOk(c: Client) {
    && (forall i :: 0 <= i < |c.world.sent| ==> c.world.sent[i] < c.counter)
    && (forall i, j :: 0 <= i < j < |c.world.sent| ==> c.world.sent[i] < c.world.sent[j])
    && (forall id <- c.requests :: id < c.counter)
  }

  predicate SubscriptionsOk(names: seq<string>, c: Client) {
    && |c.requests| + |c.active| <= |names|
    && (forall id <- c.requests :: c.requests[id] in names)
    && (forall id <- c.active :: c.active[id] in names)
  }

  predicate BackoffOk(o: Options, c: Client) {
    && |c.world.waits| == c.attempts
    && forall i :: 0 <= i < |c.world.waits| ==> c.world.waits[i] == Backoff(o, i)
  }

  predicate Inv(o: Options, c: Client) {
    OneOfEach(c) && IdsOk(c) && SubscriptionsOk(o.subscriptions, c) && BackoffOk(o, c)
  }

  // ---- preservation ----

  lemma SubscribeLeaves(c: Client, names: seq<string>)
    ensures var d := Subscribe(c, names);
            d == c.(counter := d.counter, requests := d.requests, world := c.world.(sent := d.world.sent))
  {
  }

  lemma {:induction false} SubscribeOk(c: Client, names: seq<string>)
    requires IdsOk(c) && c.requests == map[] && c.active == map[]
    ensures var d := Subscribe(c, names);
            && IdsOk(d) && |d.requests| == |names| && d.active == map[]
            && forall id <- d.requests :: d.requests[id] in names
  {
    if names != [] {
      var rest := names[..|names| - 1];
      SubscribeOk(c, rest);
      var d := Subscribe(c, rest);
      assert d.counter !in d.requests;
      assert forall n <- rest :: n in names;
    }
  }

  // Sockets and timers, one primitive at a time.

  lemma DropSocketOne(c: Client)
    requires OneOfEach(c)
    ensures var d := DropSocket(c);
            && OneOfEach(d) && d.socket.None? && (forall k <- d.world.sockets :: !d.world.sockets[k].attached)
  {
  }

  lemma ClearReconnectOne(c: Client)
    requires OneOfEach(c)
    ensures var d := ClearReconnect(c);
            OneOfEach(d) && d.reconnectTimer.None? && (forall t <- d.world.armed :: !d.world.armed[t].ReconnectTimer?)
  {
  }

  lemma ClearPingOne(c: Client)
    requires OneOfEach(c)
    ensures var d := ClearPing(c);
            OneOfEach(d) && forall t <- d.world.armed :: d.world.armed[t].ReconnectTimer?
  {
  }

  lemma ConnectOne(c: Client)
    requires OneOfEach(c)
    ensures OneOfEach(Connect(c))
  {
    hide DropSocket, ClearReconnect;
    DropSocketOne(c);
    ClearReconnectOne(DropSocket(c));
    ReconnectSockets(DropSocket(c));
  }

  lemma ReconnectSockets(c: Client)
    ensures ClearReconnect(c).world.sockets == c.world.sockets && ClearReconnect(c).socket == c.socket
  {
  }

  lemma ReconnectOne(o: Options, c: Client)
    requires OneOfEach(c)
    ensures OneOfEach(Reconnect(o, c))
  {
    hide ClearPing, DropSocket, Backoff;
    ClearPingOne(c);
    if Disabled(o) { DropSocketOne(ClearPing(c)); }
  }

  lemma PingOne(c: Client)
    requires OneOfEach(c)
    ensures OneOfEach(SchedulePing(c))
  {
    hide ClearPing;
    ClearPingOne(c);
  }

  lemma CloseOne(c: Client)
    requires OneOfEach(c)
    ensures var d := Close(c); OneOfEach(d) && d.world.armed == map[] && d.socket.None? && d.reconnectTimer.None?
    ensures forall k <- Close(c).world.sockets :: !Close(c).world.sockets[k].attached
  {
    hide ClearPing, DropSocket, ClearReconnect;
    ClearPingOne(c);
    ClearReconnectOne(ClearPing(c));
    ClearReconnectArmed(ClearPing(c));
    DropSocketOne(ClearReconnect(ClearPing(c)));
    DropSocketTimers(ClearReconnect(ClearPing(c)));
    var d := ClearReconnect(ClearPing(c));
    assert forall t <- d.world.armed :: t in ClearPing(c).world.armed;
    assert d.world.armed == map[];
  }

  lemma ClearReconnectArmed(c: Client)
    ensures forall t <- ClearReconnect(c).world.armed ::
      t in c.world.armed && ClearReconnect(c).world.armed[t] == c.world.armed[t]
  {
  }

  lemma DropSocketTimers(c: Client)
    ensures DropSocket(c).world.armed == c.world.armed && DropSocket(c).reconnectTimer == c.reconnectTimer
  {
  }

  // Ids, subscriptions and delays depend only on a few fields.

  predicate SameRequests(c: Client, d: Client) {
    d.counter == c.counter && d.requests == c.requests && d.active == c.active && d.world.sent == c.world.sent
  }

  lemma FrameRequests(o: Options, c: Client, d: Client)
    requires IdsOk(c) && SubscriptionsOk(o.subscriptions, c) && SameRequests(c, d)
    ensures IdsOk(d) && SubscriptionsOk(o.subscriptions, d)
  {
  }

  lemma ConnectLeaves(c: Client)
    ensures SameRequests(c, Connect(c)) && Connect(c).attempts == c.attempts && Connect(c).world.waits == c.world.waits
  {
  }

  lemma PingLeaves(c: Client)
    ensures var d := SchedulePing(c); SameRequests(c, d) && d.attempts == c.attempts && d.world.waits == c.world.waits
    ensures SchedulePing(c).world.latePings == c.world.latePings &&
      SchedulePing(c).world.lateResponses == c.world.lateResponses
  {
  }

  lemma CloseLeaves(c: Client)
    ensures var d := Close(c); SameRequests(c, d) && d.attempts == c.attempts && d.world.waits == c.world.waits
    ensures Close(c).world.latePings == c.world.latePings && Close(c).world.lateResponses == c.world.lateResponses
  {
  }

  lemma ReconnectLeaves(o: Options, c: Client)
    ensures var d := Reconnect(o, c);
            && SameRequests(c, d)
            && (|| (d.attempts == c.attempts && d.world.waits == c.world.waits)
                || (d.attempts == c.attempts + 1 && d.world.waits == c.world.waits + [Backoff(o, c.attempts)]))
  {
    hide Backoff;
  }

  lemma ReconnectKeeps(o: Options, c: Client)
    requires Inv(o, c)
    ensures Inv(o, Reconnect(o, c))
  {
    hide Reconnect, OneOfEach, Backoff, IdsOk, SubscriptionsOk;
    ReconnectOne(o, c);
    ReconnectLeaves(o, c);
    FrameRequests(o, c, Reconnect(o, c));
  }

  lemma ConnectKeeps(o: Options, c: Client)
    requires Inv(o, c)
    ensures Inv(o, Connect(c))
  {
    hide Connect, OneOfEach, Backoff, IdsOk, SubscriptionsOk;
    ConnectOne(c);
    ConnectLeaves(c);
    FrameRequests(o, c, Connect(c));
  }

  lemma PingKeeps(o: Options, c: Client)
    requires Inv(o, c)
    ensures Inv(o, SchedulePing(c))
  {
    hide SchedulePing, OneOfEach, Backoff, IdsOk, SubscriptionsOk;
    PingOne(c);
    PingLeaves(c);
    FrameRequests(o, c, SchedulePing(c));
  }

  lemma CloseKeeps(o: Options, c: Client)
    requires Inv(o, c)
    ensures Inv(o, Close(c))
  {
    hide Close, OneOfEach, Backoff, IdsOk, SubscriptionsOk;
    CloseOne(c);
    CloseLeaves(c);
    FrameRequests(o, c, Close(c));
  }

  lemma OpenKeeps(o: Options, c: Client, k: Id)
    requires Inv(o, c) && Attached(c, k)
    ensures Inv(o, Opened(o, c, k))
  {
    hide SchedulePing, Subscribe, Backoff, IdsOk, SubscriptionsOk;
    var a := c.(attempts := 0, disconnectDetected := false,
                world := c.world.(sockets := c.world.sockets[k := Socket(true, true)], waits := []));
    assert OneOfEach(a);
    FrameRequests(o, c, a);
    PingKeeps(o, a);
    PingLeaves(a);
    var d := SchedulePing(a).(requests := map[], active := map[]);
    Forget(SchedulePing(a));
    SubscribeLeaves(d, o.subscriptions);
    SubscribeOk(d, o.subscriptions);
    Subscribed(o, Subscribe(d, o.subscriptions));
  }

  lemma Forget(c: Client)
    requires IdsOk(c)
    ensures IdsOk(c.(requests := map[], active := map[]))
  {
  }

  lemma Subscribed(o: Options, c: Client)
    requires |c.requests| == |o.subscriptions| && c.active == map[] &&
      forall id <- c.requests :: c.requests[id] in o.subscriptions
    ensures SubscriptionsOk(o.subscriptions, c)
  {
  }

  lemma ResultKeeps(o: Options, c: Client, id: nat, subId: string)
    requires Inv(o, c)
    ensures Inv(o, Result(c, id, subId))
  {
    hide Backoff;
    if id in c.requests && c.requests[id] != "" {
      var d := Result(c, id, subId);
      ResultSubscriptions(o.subscriptions, c, id, subId);
      assert forall x <- d.requests :: x in c.requests;
    }
  }

  /** Settling a request moves one entry from the pending to the active side. */
  lemma ResultSubscriptions(names: seq<string>, c: Client, id: nat, subId: string)
    requires SubscriptionsOk(names, c) && id in c.requests
    ensures SubscriptionsOk(names, c.(requests := c.requests - {id}, active := c.active[subId := c.requests[id]]))
  {
    var pending, active := c.requests - {id}, c.active[subId := c.requests[id]];
    assert c.requests.Keys == pending.Keys + {id};
    assert active.Keys == c.active.Keys + {subId};
    assert |pending.Keys| == |c.requests.Keys| - 1 && |active.Keys| <= |c.active.Keys| + 1;
    assert |pending| == |pending.Keys| && |active| == |active.Keys|;
  }

  lemma WorldOnly(o: Options, c: Client, w: World)
    requires Inv(o, c) && w == c.world.(sockets := w.sockets, armed := w.armed, latePings := w.latePings,
      lateResponses := w.lateResponses)
    requires forall t <- w.armed :: t in c.world.armed && w.armed[t] == c.world.armed[t]
    requires w.sockets.Keys == c.world.sockets.Keys
    requires forall k <- w.sockets :: (w.sockets[k].attached ==> c.world.sockets[k].attached)
    ensures Inv(o, c.(world := w)) && Inv(o, c.(world := w, disconnectDetected := true))
  {
    hide Backoff;
  }

  lemma NextKeeps(o: Options, c: Client, e: Event)
    requires Inv(o, c) && Enabled(c, e)
    ensures Inv(o, Next(o, c, e))
  {
    hide Inv, Reconnect, Connect, SchedulePing, Opened, Result, Close, Backoff;
    match e {
      case SocketOpen(k) => OpenKeeps(o, c, k);
      case SocketClose(k) =>
        var w := c.world.(sockets := c.world.sockets[k := Socket(true, false)]);
        WorldOnly(o, c, w);
        ReconnectKeeps(o, c.(disconnectDetected := true, world := w));
      case SocketPong(_) => PingKeeps(o, c);
      case SocketRefused(_) => WorldOnly(o, c, c.world.(lateResponses := c.world.lateResponses + 1));
      case SocketResult(_, id, subId) => ResultKeeps(o, c, id, subId);
      case TimerFires(t) =>
        var d := c.(world := Disarm(c.world, Some(t)));
        WorldOnly(o, c, d.world);
        ConnectKeeps(o, d);
        ReconnectKeeps(o, d);
        WorldOnly(o, d, d.world.(latePings := d.world.latePings + 1));
      case PingAnswered(failed) =>
        var w := c.world.(latePings := c.world.latePings - 1);
        WorldOnly(o, c, w);
        ReconnectKeeps(o, c.(world := w));
      case ResponseRead =>
        var w := c.world.(lateResponses := c.world.lateResponses - 1);
        WorldOnly(o, c, w);
        ReconnectKeeps(o, c.(world := w));
      case UserSend => SendKeeps(o, c);
      case UserClose => CloseKeeps(o, c);
    }
  }

  lemma SendKeeps(o: Options, c: Client)
    requires Inv(o, c)
    ensures Inv(o, SendRpc(c))
  {
    hide Backoff;
  }

  lemma InitialOk(o: Options)
    ensures Inv(o, Initial())
  {
  }

  lemma {:induction false} RunKeeps(o: Options, c: Client, run: seq<Event>)
    requires Inv(o, c) && ValidFrom(o, c, run)
    ensures Inv(o, After(o, c, run))
    decreases |run|
  {
    hide Inv, Enabled, Next;
    if run != [] {
      NextKeeps(o, c, run[0]);
      RunKeeps(o, Next(o, c, run[0]), run[1..]);
    }
  }

  // ---- guarantees, after any sequence of events ----

  /** At most one socket carries the client's handlers, and at most one timer of each kind is armed. */
  lemma OneSocketOneTimerEach(o: Options, run: seq<Event>)
    requires ValidFrom(o, Initial(), run)
    ensures var c := After(o, Initial(), run);
            && (forall j: Id, k: Id | Attached(c, j) && Attached(c, k) :: j == k)
            && (forall k: Id | Attached(c, k) :: c.socket == Some(k))
            && (forall t, u | t in c.world.armed && u in c.world.armed &&
                c.world.armed[t] == c.world.armed[u] :: t == u)
  {
    hide Enabled, Next;
    InitialOk(o);
    RunKeeps(o, Initial(), run);
  }

  /** No request id is ever used twice, across any number of reconnects. */
  lemma IdsNeverReused(o: Options, run: seq<Event>)
    requires ValidFrom(o, Initial(), run)
    ensures var ids := After(o, Initial(), run).world.sent;
            forall i, j :: 0 <= i < j < |ids| ==> ids[i] < ids[j]
  {
    hide Enabled, Next;
    InitialOk(o);
    RunKeeps(o, Initial(), run);
  }

  /** Pending and active subscriptions never exceed the configured ones, and carry configured names. */
  lemma SubscriptionsBounded(o: Options, run: seq<Event>)
    requires ValidFrom(o, Initial(), run)
    ensures SubscriptionsOk(o.subscriptions, After(o, Initial(), run))
  {
    hide Enabled, Next;
    InitialOk(o);
    RunKeeps(o, Initial(), run);
  }

  lemma {:induction false} Pow2Grows(i: nat, j: nat)
    requires i <= j
    ensures 1 <= Pow2(i) <= Pow2(j)
  {
    if i < j { Pow2Grows(i, j - 1); } else if i > 0 { Pow2Grows(i - 1, j - 1); }
  }

  lemma BackoffGrows(o: Options, i: nat, j: nat)
    requires i <= j && BaseDelay(o) >= 0
    ensures Backoff(o, i) <= Backoff(o, j)
    ensures o.maxDelay.Some? ==> Backoff(o, j) <= o.maxDelay.value
  {
    Pow2Grows(i, j);
    assert BaseDelay(o) * Pow2(i) <= BaseDelay(o) * Pow2(j);
  }

  /**
   The k-th reconnect since the last open waits min(base * 2^k, max), or base without a maximum:
   the waits never shrink and never exceed the maximum.
   */
  lemma ReconnectWaits(o: Options, run: seq<Event>, i: nat, j: nat)
    requires ValidFrom(o, Initial(), run) && i <= j < |After(o, Initial(), run).world.waits|
    ensures var waits := After(o, Initial(), run).world.waits;
            && waits[j] == Backoff(o, j)
            && (BaseDelay(o) >= 0 ==> waits[i] <= waits[j])
            && (BaseDelay(o) >= 0 && o.maxDelay.Some? ==> waits[j] <= o.maxDelay.value)
  {
    hide Enabled, Next, Backoff;
    InitialOk(o);
    RunKeeps(o, Initial(), run);
    if BaseDelay(o) >= 0 { BackoffGrows(o, i, j); }
  }

  // ---- is close() final? ----

  predicate Dormant(c: Client) { c.socket.None? && c.world.armed == map[] }

  /** Whatever happens later, the client never has a socket or an armed timer again. */
  ghost predicate StaysClosed(o: Options, c: Client) {
    forall run | ValidFrom(o, c, run) :: Dormant(After(o, c, run))
  }

  predicate NoCallbacks(c: Client) { c.world.latePings == 0 && c.world.lateResponses == 0 }

  /** Nothing can happen to a closed client but user calls, and late callbacks that do nothing. */
  predicate Inert(o: Options, c: Client) {
    && Dormant(c) && c.reconnectTimer.None?
    && (forall k <- c.world.sockets :: !c.world.sockets[k].attached)
    && (NoCallbacks(c) || Disabled(o))
  }

  lemma InertStays(o: Options, c: Client, e: Event)
    requires Inert(o, c) && Enabled(c, e)
    ensures Inert(o, Next(o, c, e))
  {
    hide Backoff;
  }

  lemma {:induction false} InertForEver(o: Options, c: Client, run: seq<Event>)
    requires Inert(o, c) && ValidFrom(o, c, run)
    ensures Dormant(After(o, c, run))
    decreases |run|
  {
    hide Enabled, Next;
    if run != [] {
      InertStays(o, c, run[0]);
      InertForEver(o, Next(o, c, run[0]), run[1..]);
    }
  }

  /** A failing ping callback, or the body of a refusal, arriving after close() starts a new reconnect. */
  lemma LateCallbackReopens(o: Options, c: Client)
    requires Dormant(c) && c.reconnectTimer.None? && !NoCallbacks(c) && !Disabled(o)
    ensures !StaysClosed(o, c)
  {
    hide Backoff;
    var e := if c.world.latePings > 0 then PingAnswered(true) else ResponseRead;
    var d := Next(o, c, e);
    assert ValidFrom(o, d, []);
    assert [e][1..] == [];
    assert ValidFrom(o, c, [e]) && After(o, c, [e]) == d;
    assert c.world.nextId in d.world.armed;
  }

  /**
   close() is final exactly when no ping or refused handshake is still waiting for its callback, or
   reconnecting is disabled. Callbacks are bound to the client, not to the socket, so they outlive it.
   */
  lemma CloseIsFinal(o: Options, run: seq<Event>)
    requires ValidFrom(o, Initial(), run)
    ensures var c := After(o, Initial(), run); StaysClosed(o, Close(c)) <==> NoCallbacks(c) || Disabled(o)
  {
    hide Enabled, Next, Close, ValidFrom, After;
    InitialOk(o);
    RunKeeps(o, Initial(), run);
    var c := After(o, Initial(), run);
    CloseOne(c);
    CloseLeaves(c);
    if NoCallbacks(c) || Disabled(o) {
      forall more | ValidFrom(o, Close(c), more) ensures Dormant(After(o, Close(c), more)) {
        InertForEver(o, Close(c), more);
      }
    } else {
      LateCallbackReopens(o, Close(c));
    }
  }

  // ---- the client object itself ----

  class PaladinWebSocketClient {
    const options: Options
    var socket: Option<Id>
    var pingTimer: Option<Id>
    var disconnectTimer: Option<Id>
    var reconnectTimer: Option<Id>
    var disconnectDetected: bool
    var reconnectAttempts: nat
    var counter: nat
    var subscriptionRequests: map<nat, string>
    var activeSubscriptions: map<string, string>
    var world: World

    ghost function Value(): (c: Client)
      reads this
    {
      Client(socket, pingTimer, disconnectTimer, reconnectTimer, disconnectDetected, reconnectAttempts, counter,
             subscriptionRequests, activeSubscriptions, world)
    }

    constructor (options: Options)
      ensures this.options == options && Value() == Initial()
    {
      this.options := options;
      socket, pingTimer, disconnectTimer, reconnectTimer := None, None, None, None;
      disconnectDetected, reconnectAttempts, counter := false, 0, 1;
      subscriptionRequests, activeSubscriptions := map[], map[];
      world := World(map[], map[], 0, 0, 0, [], []);
      new;
      Open();
    }

    /** connect() */
    method Open()
      modifies this
      ensures Value() == Connect(old(Value()))
    {
      if socket.Some? {
        world := SafeClose(world, socket.value);
        socket := None;
      }
      if reconnectTimer.Some? {
        world := Disarm(world, reconnectTimer);
        reconnectTimer := None;
      }
      socket := Some(world.nextId);
      world := world.(sockets := world.sockets[world.nextId := Socket(true, false)], nextId := world.nextId + 1);
    }

    method ClearPingTimers()
      modifies this
      ensures Value() == ClearPing(old(Value()))
    {
      if disconnectTimer.Some? {
        world := Disarm(world, disconnectTimer);
        disconnectTimer := None;
      }
      if pingTimer.Some? {
        world := Disarm(world, pingTimer);
        pingTimer := None;
      }
    }

    method StartPing()
      modifies this
      ensures Value() == SchedulePing(old(Value()))
    {
      ClearPingTimers();
      disconnectTimer := Some(world.nextId);
      world := Arm(world, DisconnectTimer);
      pingTimer := Some(world.nextId);
      world := Arm(world, PingTimer);
    }

    method StartReconnect()
      modifies this
      ensures Value() == Reconnect(options, old(Value()))
    {
      ClearPingTimers();
      if reconnectTimer.Some? {
        return;
      }
      if Disabled(options) {
        if socket.Some? {
          world := SafeClose(world, socket.value);
          socket := None;
        }
        return;
      }
      world := world.(waits := world.waits + [Backoff(options, reconnectAttempts)]);
      reconnectAttempts := reconnectAttempts + 1;
      reconnectTimer := Some(world.nextId);
      world := Arm(world, ReconnectTimer);
    }

    method Send() returns (id: nat)
      modifies this
      ensures id == old(counter) && Value() == SendRpc(old(Value()))
    {
      id := counter;
      counter := counter + 1;
      world := world.(sent := world.sent + [id]);
    }

    /** The handler of the open event. */
    method OnOpen(k: Id)
      modifies this
      ensures Value() == Opened(options, old(Value()), k)
    {
      reconnectAttempts := 0;
      disconnectDetected := false;
      world := world.(sockets := world.sockets[k := Socket(true, true)], waits := []);
      StartPing();
      subscriptionRequests := map[];
      activeSubscriptions := map[];
      ghost var start := Value();
      for i := 0 to |options.subscriptions|
        invariant Value() == Subscribe(start, options.subscriptions[..i])
      {
        assert options.subscriptions[..i + 1][..i] == options.subscriptions[..i];
        var id := Send();
        subscriptionRequests := subscriptionRequests[id := options.subscriptions[i]];
      }
      assert options.subscriptions[..|options.subscriptions|] == options.subscriptions;
    }

    /** close() */
    method Shutdown()
      modifies this
      ensures Value() == Close(old(Value()))
    {
      ClearPingTimers();
      if reconnectTimer.Some? {
        world := Disarm(world, reconnectTimer);
        reconnectTimer := None;
      }
      if socket.Some? {
        world := SafeClose(world, socket.value);
        socket := None;
      }
    }
  }
}
