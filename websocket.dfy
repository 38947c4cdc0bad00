/** The socket module: the one module-level socket that connect and
    disconnect replace, and the fixed routing from a page's callbacks
    object to socket.io event names. The socket.io client is reduced to
    what the module touches: its `connected` flag and its registry of
    listeners, a multiset of (event name, function) entries. */
module WebSocket {

  import opened Json

  /** A listener function: the three loggers the module installs itself,
      or a page's callback, known by its identity. */
  datatype Handler = ConnectLogger | DisconnectLogger | ErrorLogger | Callback(id: nat)

  /** The five entity topics with a subscribe/unsubscribe pair. */
  datatype Topic = UserTopic | PostTopic | CommunityTopic | EventTopic | ReportTopic

  /** The keys of a callbacks object. */
  datatype Slot = OnNew | OnUpdated | OnResolved | OnDeleted

  /** The events the module names; `Name` gives the string socket.io
      sees. */
  datatype Event =
    | ConnectEvent | DisconnectEvent | ErrorEvent
    | StatsUpdated | AnalyticsUpdated
    | TopicEvent(topic: Topic, slot: Slot)

  function Name(e: Event): string {
    match e
    case ConnectEvent => "connect"
    case DisconnectEvent => "disconnect"
    case ErrorEvent => "error"
    case StatsUpdated => "stats:updated"
    case AnalyticsUpdated => "analytics:updated"
    case TopicEvent(t, s) => Prefix(t) + ":" + Suffix(s)
  }

  datatype Listener = Listener(event: Event, handler: Handler)

  /** The listeners `connectSocket` installs on a new socket. */
  const Builtins: multiset<Listener> :=
    multiset{Listener(ConnectEvent, ConnectLogger), Listener(DisconnectEvent, DisconnectLogger), Listener(ErrorEvent, ErrorLogger)}

  /** A callbacks object: the keys holding a function (a missing or falsy
      key is simply absent). */
  type Callbacks = map<Slot, nat>

  function Prefix(t: Topic): string {
    match t
    case UserTopic => "user"
    case PostTopic => "post"
    case CommunityTopic => "community"
    case EventTopic => "event"
    case ReportTopic => "report"
  }

  function Suffix(s: Slot): string {
    match s
    case OnNew => "new"
    case OnUpdated => "updated"
    case OnResolved => "resolved"
    case OnDeleted => "deleted"
  }

  /** The slot a topic reads besides `onNew` and `onDeleted`: reports read
      `onResolved`, every other topic `onUpdated`. */
  function Middle(t: Topic): Slot {
    if t == ReportTopic then OnResolved else OnUpdated
  }

  /** A topic's subscribe function reads this slot of the callbacks. */
  predicate Routed(t: Topic, s: Slot) {
    s == OnNew || s == Middle(t) || s == OnDeleted
  }

  /** The listener one slot contributes, if any. */
  function Entry(t: Topic, cbs: Callbacks, s: Slot): multiset<Listener> {
    if s in cbs then multiset{Listener(TopicEvent(t, s), Callback(cbs[s]))} else multiset{}
  }

  /** Everything `subscribeTo<Topic>(cbs)` registers. */
  function Registrations(t: Topic, cbs: Callbacks): multiset<Listener> {
    Entry(t, cbs, OnNew) + Entry(t, cbs, Middle(t)) + Entry(t, cbs, OnDeleted)
  }

  /** A topic registers exactly the callbacks present in the slots it
      routes, each on its own event name. */
  lemma RegistrationsArePresentCallbacks(t: Topic, cbs: Callbacks)
    ensures forall s :: Routed(t, s) && s in cbs ==>
      Listener(TopicEvent(t, s), Callback(cbs[s])) in Registrations(t, cbs)
    ensures forall l :: l in Registrations(t, cbs) ==>
      l.handler.Callback? && exists s :: Routed(t, s) && s in cbs && l == Listener(TopicEvent(t, s), Callback(cbs[s]))
  {
  }

  /** Every listener a topic registers is on one of that topic's events
      and carries one of the callbacks. */
  lemma {:induction false} RegisteredEvents(t: Topic, cbs: Callbacks, l: Listener)
    requires l in Registrations(t, cbs)
    ensures l.event.TopicEvent? && l.event.topic == t && Routed(t, l.event.slot)
    ensures l.event.slot in cbs && l.handler == Callback(cbs[l.event.slot])
  {
    var a, b, c := Entry(t, cbs, OnNew), Entry(t, cbs, Middle(t)), Entry(t, cbs, OnDeleted);
    assert l in a || l in b || l in c;
  }

  /** Reports route `onResolved` to `report:resolved` and have no
      `updated` event; the other topics route `onUpdated` and have no
      `resolved` event. */
  lemma ReportRouting(t: Topic, cbs: Callbacks, l: Listener)
    requires l in Registrations(t, cbs)
    ensures t == ReportTopic ==> l.event != TopicEvent(t, OnUpdated)
    ensures t != ReportTopic ==> l.event != TopicEvent(t, OnResolved)
    ensures Name(TopicEvent(ReportTopic, OnResolved)) == "report:resolved"
  {
    RegisteredEvents(t, cbs, l);
  }

  /** An empty callbacks object registers nothing. */
  lemma NoCallbacksNoListeners(t: Topic)
    ensures Registrations(t, map[]) == multiset{}
  {
  }

  lemma MultisetAssoc(x: multiset<Listener>, a: multiset<Listener>, b: multiset<Listener>, c: multiset<Listener>)
    ensures x + a + b + c == x + (a + b + c)
  {
  }

  /** The registry after `subscribeTo<Topic>(cbs)`. */
  function Register(listeners: multiset<Listener>, t: Topic, cbs: Callbacks): multiset<Listener> {
    listeners + Registrations(t, cbs)
  }

  /** The registry after `unsubscribeFrom<Topic>(cbs)`: one `off` per
      routed callback, each removing one matching listener. */
  function Unregister(listeners: multiset<Listener>, t: Topic, cbs: Callbacks): multiset<Listener> {
    listeners - Entry(t, cbs, OnNew) - Entry(t, cbs, Middle(t)) - Entry(t, cbs, OnDeleted)
  }

  /** Unsubscribing the callbacks object just subscribed restores the
      registry it started from, whatever else was registered. */
  lemma UnregisterUndoesRegister(listeners: multiset<Listener>, t: Topic, cbs: Callbacks)
    ensures Unregister(Register(listeners, t, cbs), t, cbs) == listeners
  {
    var a, b, c := Entry(t, cbs, OnNew), Entry(t, cbs, Middle(t)), Entry(t, cbs, OnDeleted);
    assert listeners + (a + b + c) - a == listeners + b + c;
    assert listeners + b + c - b == listeners + c;
  }

  /** A socket.io client socket. */
  class Socket {
    /** The `auth.token` it was opened with. */
    const token: Json
    var connected: bool
    var listeners: multiset<Listener>

    /** `io(url, options)`: not yet connected, no listeners. */
    constructor (token: Json)
      ensures this.token == token && !connected && listeners == multiset{}
    {
      this.token := token;
      connected := false;
      listeners := multiset{};
    }

    /** `socket.on(event, fn)`. */
    method On(event: Event, h: Handler)
      modifies this
      ensures listeners == old(listeners) + multiset{Listener(event, h)}
      ensures connected == old(connected)
    {
      listeners := listeners + multiset{Listener(event, h)};
    }

    /** `socket.off(event, fn)`: removes one matching listener, if any. */
    method Off(event: Event, h: Handler)
      modifies this
      ensures listeners == old(listeners) - multiset{Listener(event, h)}
      ensures connected == old(connected)
    {
      listeners := listeners - multiset{Listener(event, h)};
    }

    /** The library completing its handshake with the server. */
    method Handshake()
      modifies this
      ensures connected && listeners == old(listeners)
    {
      connected := true;
    }

    /** `socket.disconnect()`. */
    method Disconnect()
      modifies this
      ensures !connected && listeners == old(listeners)
    {
      connected := false;
    }
  }

  /** The module and its `let socket`. */
  class SocketModule {
    var socket: Socket?

    constructor ()
      ensures socket == null
    {
      socket := null;
    }

    /** `isConnected()`: `socket?.connected || false`. */
    function IsConnected(): (r: bool)
      reads this, socket
      ensures r ==> socket != null
    {
      socket != null && socket.connected
    }

    /** `getSocket()`. */
    function GetSocket(): (s: Socket?)
      reads this
      ensures s == socket
    {
      socket
    }

    /** `connectSocket(token)`: the current socket when it is connected;
        otherwise a new, not yet connected socket carrying the three
        logging listeners, which replaces the module's socket. */
    method Connect(token: Json) returns (s: Socket)
      modifies this
      ensures socket == s
      ensures old(IsConnected()) ==> s == old(socket) && s.listeners == old(socket.listeners)
      ensures !old(IsConnected()) ==>
        fresh(s) && !s.connected && s.token == token && s.listeners == Builtins
    {
      if socket != null && socket.connected {
        return socket;
      }
      s := new Socket(token);
      s.On(ConnectEvent, ConnectLogger);
      s.On(DisconnectEvent, DisconnectLogger);
      s.On(ErrorEvent, ErrorLogger);
      socket := s;
    }

    /** `disconnectSocket()`: closes the current socket and forgets it; does
        nothing without one. */
    method Disconnect()
      modifies this, socket
      ensures socket == null
      ensures old(socket) != null ==> !old(socket).connected && old(socket).listeners == old(socket.listeners)
    {
      if socket != null {
        socket.Disconnect();
        socket := null;
      }
    }

    /** `subscribeTo<Topic>(callbacks)`; nothing happens without a socket. */
    method Subscribe(t: Topic, cbs: Callbacks)
      modifies socket
      ensures socket == old(socket)
      ensures socket != null ==>
        socket.listeners == Register(old(socket.listeners), t, cbs) && socket.connected == old(socket.connected)
    {
      if socket == null {
        return;
      }
      var s := socket;
      ghost var before := s.listeners;
      ghost var a, b, c := Entry(t, cbs, OnNew), Entry(t, cbs, Middle(t)), Entry(t, cbs, OnDeleted);
      if OnNew in cbs {
        s.On(TopicEvent(t, OnNew), Callback(cbs[OnNew]));
      }
      assert s.listeners == before + a;
      if Middle(t) in cbs {
        s.On(TopicEvent(t, Middle(t)), Callback(cbs[Middle(t)]));
      }
      assert s.listeners == before + a + b;
      if OnDeleted in cbs {
        s.On(TopicEvent(t, OnDeleted), Callback(cbs[OnDeleted]));
      }
      assert s.listeners == before + a + b + c;
      assert Registrations(t, cbs) == a + b + c;
      MultisetAssoc(before, a, b, c);
    }

    /** `unsubscribeFrom<Topic>(callbacks)`; nothing happens without a
        socket. */
    method Unsubscribe(t: Topic, cbs: Callbacks)
      modifies socket
      ensures socket == old(socket)
      ensures socket != null ==>
        socket.listeners == Unregister(old(socket.listeners), t, cbs) && socket.connected == old(socket.connected)
    {
      if socket == null {
        return;
      }
      var s := socket;
      ghost var before := s.listeners;
      ghost var a, b, c := Entry(t, cbs, OnNew), Entry(t, cbs, Middle(t)), Entry(t, cbs, OnDeleted);
      if OnNew in cbs {
        s.Off(TopicEvent(t, OnNew), Callback(cbs[OnNew]));
      }
      assert s.listeners == before - a;
      if Middle(t) in cbs {
        s.Off(TopicEvent(t, Middle(t)), Callback(cbs[Middle(t)]));
      }
      assert s.listeners == before - a - b;
      if OnDeleted in cbs {
        s.Off(TopicEvent(t, OnDeleted), Callback(cbs[OnDeleted]));
      }
      assert s.listeners == before - a - b - c;
    }

    /** `subscribeToStats` and `subscribeToAnalytics`: one callback on
        `stats:updated` or `analytics:updated`. */
    method SubscribeOne(event: Event, callback: nat)
      requires event == StatsUpdated || event == AnalyticsUpdated
      modifies socket
      ensures socket == old(socket)
      ensures socket != null ==>
        socket.listeners == old(socket.listeners) + multiset{Listener(event, Callback(callback))}
        && socket.connected == old(socket.connected)
    {
      if socket != null {
        socket.On(event, Callback(callback));
      }
    }

    /** `unsubscribeFromStats` and `unsubscribeFromAnalytics`. */
    method UnsubscribeOne(event: Event, callback: nat)
      requires event == StatsUpdated || event == AnalyticsUpdated
      modifies socket
      ensures socket == old(socket)
      ensures socket != null ==>
        socket.listeners == old(socket.listeners) - multiset{Listener(event, Callback(callback))}
        && socket.connected == old(socket.connected)
    {
      if socket != null {
        socket.Off(event, Callback(callback));
      }
    }

    /** A page mounting and unmounting: subscribe, then unsubscribe the same
        callbacks object, leaves the registry as it was. */
    method MountUnmount(t: Topic, cbs: Callbacks)
      modifies socket
      ensures socket == old(socket)
      ensures socket != null ==> socket.listeners == old(socket.listeners) && socket.connected == old(socket.connected)
    {
      Subscribe(t, cbs);
      Unsubscribe(t, cbs);
      if socket != null {
        UnregisterUndoesRegister(old(socket.listeners), t, cbs);
      }
    }
  }

  /** A second `connectSocket` while the first socket is still connecting
      opens another socket: the module only reuses a connected one. */
  method ConnectTwiceBeforeHandshake(m: SocketModule, token: Json) returns (first: Socket, second: Socket)
    requires !m.IsConnected()
    modifies m
    ensures first != second && m.socket == second && !first.connected
  {
    first := m.Connect(token);
    second := m.Connect(token);
  }
}
