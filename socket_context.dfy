/** `src/hooks/useSocket.tsx`: the provider's connection state (`socket`,
    `isConnected`, `error`) driven by the three socket events, the
    reconnect-on-server-disconnect rule, the cleanup, the `useSocket` guard
    and `useSocketEvent`. */
module SocketContext {
  import opened Wrappers
  import opened SocketIo
  import opened Credentials

  /** The events the provider listens for; `disconnect` carries its reason. */
  datatype SocketEvent = Connect | ConnectError | Disconnect(reason: string)

  function EventName(ev: SocketEvent): string {
    match ev
    case Connect => "connect"
    case ConnectError => "connect_error"
    case Disconnect(_) => "disconnect"
  }

  const ConnectErrorMessage: string := "Failed to connect to the chat server"
  const ServerDisconnect: string := "io server disconnect"
  /** The reason a connected socket reports when the client itself calls
      `disconnect()` or `close()`. */
  const ClientDisconnect: string := "io client disconnect"
  const OutsideProvider: string := "useSocket must be used within a SocketProvider"

  /** `isConnected` and `error` together. */
  datatype Connection = Connection(isConnected: bool, error: Option<string>)

  const Initial: Connection := Connection(false, None)

  /** What each handler does to the state. */
  function AfterEvent(c: Connection, ev: SocketEvent): (r: Connection)
    ensures r.isConnected <==> ev.Connect?
    ensures ev.Connect? ==> r.error == None
    ensures ev.ConnectError? ==> r.error == Some(ConnectErrorMessage)
    ensures ev.Disconnect? ==> r.error == c.error
  {
    match ev
    case Connect => Connection(true, None)
    case ConnectError => Connection(false, Some(ConnectErrorMessage))
    case Disconnect(_) => c.(isConnected := false)
  }

  /** The disconnect handler asks the socket to connect again only when the
      server closed the connection. */
  predicate Reconnects(ev: SocketEvent) {
    ev.Disconnect? && ev.reason == ServerDisconnect
  }

  /** The state after a run of events. */
  function Replay(c: Connection, evs: seq<SocketEvent>): Connection
    decreases |evs|
  {
    if evs == [] then c else Replay(AfterEvent(c, evs[0]), evs[1..])
  }

  /** The error reported after a run of events: the last connect or
      connect error decides it, disconnects leave it alone. */
  function LastError(e: Option<string>, evs: seq<SocketEvent>): Option<string>
    decreases |evs|
  {
    if evs == [] then e
    else
      var last := evs[|evs| - 1];
      if last.Connect? then None
      else if last.ConnectError? then Some(ConnectErrorMessage)
      else LastError(e, evs[..|evs| - 1])
  }

  lemma {:induction false} ReplaySnoc(c: Connection, evs: seq<SocketEvent>, ev: SocketEvent)
    ensures Replay(c, evs + [ev]) == AfterEvent(Replay(c, evs), ev)
    decreases |evs|
  {
    if evs == [] {
      assert [ev][1..] == [];
    } else {
      assert (evs + [ev])[1..] == evs[1..] + [ev];
      ReplaySnoc(AfterEvent(c, evs[0]), evs[1..], ev);
    }
  }

  /** After any run of events the client is connected exactly when the last
      event was `connect`, and it reports an error exactly when the last
      connect or connect error was an error; a connected client never shows
      an error. */
  lemma {:induction false} ReplayState(c: Connection, evs: seq<SocketEvent>)
    ensures evs != [] ==> (Replay(c, evs).isConnected <==> evs[|evs| - 1].Connect?)
    ensures Replay(c, evs).error == LastError(c.error, evs)
    ensures (c.isConnected ==> c.error.None?) ==> (Replay(c, evs).isConnected ==> Replay(c, evs).error.None?)
    decreases |evs|
  {
    if evs != [] {
      var init := evs[..|evs| - 1];
      assert evs == init + [evs[|evs| - 1]];
      ReplaySnoc(c, init, evs[|evs| - 1]);
      ReplayState(c, init);
    }
  }

  function ConnectHandler(instance: nat): Handler { Handler("handleConnect", instance) }
  function ConnectErrorHandler(instance: nat): Handler { Handler("handleConnectError", instance) }
  function DisconnectHandler(instance: nat): Handler { Handler("handleDisconnect", instance) }

  function HandlerFor(ev: SocketEvent, instance: nat): Handler {
    match ev
    case Connect => ConnectHandler(instance)
    case ConnectError => ConnectErrorHandler(instance)
    case Disconnect(_) => DisconnectHandler(instance)
  }

  /** Whether the handler of this effect run hears `ev`. */
  predicate Hears(reg: Registry, ev: SocketEvent, instance: nat) {
    HandlerFor(ev, instance) in Listeners(reg, EventName(ev))
  }

  /** The registrations made at mount. */
  function Subscribed(reg: Registry, instance: nat): Registry {
    var r1 := AddListener(reg, "connect", ConnectHandler(instance));
    var r2 := AddListener(r1, "connect_error", ConnectErrorHandler(instance));
    AddListener(r2, "disconnect", DisconnectHandler(instance))
  }

  /** The three `off` calls of the cleanup. */
  function Unsubscribed(reg: Registry, instance: nat): Registry {
    var r1 := RemoveListener(reg, "connect", ConnectHandler(instance));
    var r2 := RemoveListener(r1, "connect_error", ConnectErrorHandler(instance));
    RemoveListener(r2, "disconnect", DisconnectHandler(instance))
  }

  /** None of the handlers of effect run `instance` is registered yet. */
  predicate Fresh(reg: Registry, instance: nat) {
    && ConnectHandler(instance) !in Listeners(reg, "connect")
    && ConnectErrorHandler(instance) !in Listeners(reg, "connect_error")
    && DisconnectHandler(instance) !in Listeners(reg, "disconnect")
  }

  /** After mounting, the provider hears every event. */
  lemma SubscribedHears(reg: Registry, instance: nat, ev: SocketEvent)
    ensures Hears(Subscribed(reg, instance), ev, instance)
  {
    var r1 := AddListener(reg, "connect", ConnectHandler(instance));
    var r2 := AddListener(r1, "connect_error", ConnectErrorHandler(instance));
    assert Listeners(Subscribed(reg, instance), "connect") == Listeners(r1, "connect");
    assert Listeners(Subscribed(reg, instance), "connect_error") == Listeners(r2, "connect_error");
  }

  lemma CleanupListeners(reg: Registry, instance: nat, e: string)
    requires Fresh(reg, instance)
    ensures Listeners(Unsubscribed(Subscribed(reg, instance), instance), e) == Listeners(reg, e)
  {
    var hc, hce, hd := ConnectHandler(instance), ConnectErrorHandler(instance), DisconnectHandler(instance);
    var r1 := AddListener(reg, "connect", hc);
    var r2 := AddListener(r1, "connect_error", hce);
    var r3 := AddListener(r2, "disconnect", hd);
    var u1 := RemoveListener(r3, "connect", hc);
    var u2 := RemoveListener(u1, "connect_error", hce);
    var u3 := RemoveListener(u2, "disconnect", hd);
    if e == "connect" {
      RemoveFirstAppended(Listeners(reg, e), hc);
      assert Listeners(r3, e) == Listeners(r1, e);
      assert Listeners(u3, e) == Listeners(u1, e);
    } else if e == "connect_error" {
      RemoveFirstAppended(Listeners(reg, e), hce);
      assert Listeners(r3, e) == Listeners(r2, e);
      assert Listeners(u2, e) == RemoveFirst(Listeners(u1, e), hce);
      assert Listeners(u3, e) == Listeners(u2, e);
    } else if e == "disconnect" {
      RemoveFirstAppended(Listeners(reg, e), hd);
      assert Listeners(r2, e) == Listeners(reg, e);
      assert Listeners(u2, e) == Listeners(r3, e);
    } else {
      assert Listeners(u3, e) == Listeners(r3, e);
    }
  }

  /** Mounting hears every event, and the cleanup removes exactly the three
      handlers it registered: no other listener is touched, and later events
      reach the provider no more. */
  lemma SubscribeThenCleanup(reg: Registry, instance: nat)
    requires WellFormed(reg) && Fresh(reg, instance)
    ensures forall ev :: Hears(Subscribed(reg, instance), ev, instance)
    ensures Unsubscribed(Subscribed(reg, instance), instance) == reg
    ensures forall ev :: !Hears(Unsubscribed(Subscribed(reg, instance), instance), ev, instance)
  {
    forall ev ensures Hears(Subscribed(reg, instance), ev, instance) {
      SubscribedHears(reg, instance, ev);
    }
    forall e ensures Listeners(Unsubscribed(Subscribed(reg, instance), instance), e) == Listeners(reg, e) {
      CleanupListeners(reg, instance, e);
    }
    RegistryExtensional(Unsubscribed(Subscribed(reg, instance), instance), reg);
    forall ev ensures !Hears(reg, ev, instance) {
      match ev
      case Connect =>
      case ConnectError =>
      case Disconnect(_) =>
    }
  }

  /** `useSocket`: the context value, or the error thrown outside a provider. */
  function UseSocket<C>(context: Option<C>): (r: Result<C, string>)
    ensures r.Success? <==> context.Some?
    ensures r.Success? ==> r.value == context.value
    ensures r.Failure? ==> r.error == OutsideProvider
  {
    if context.None? then Failure(OutsideProvider) else Success(context.value)
  }

  /** The state `useSocketInit` keeps. */
  class SocketState {
    var socket: Socket?
    var isConnected: bool
    var error: Option<string>

    function State(): Connection
      reads this
    {
      Connection(isConnected, error)
    }

    constructor()
      ensures socket == null && State() == Initial
    {
      socket := null;
      isConnected := false;
      error := None;
    }

    /** The mount effect: a socket authenticated with the token read at
        mount, with the three handlers registered; the connection state is
        left to the events. */
    method Mount(ts: TokenService, instance: nat) returns (s: Socket)
      modifies this, ts
      ensures fresh(s) && socket == s && s.Valid()
      ensures ts.State() == AfterGet(old(ts.State())).state
      ensures s.authToken == AfterGet(old(ts.State())).token
      ensures s.registry == Subscribed(map[], instance)
      ensures s.active && s.emitted == []
      ensures State() == old(State())
    {
      var tk := ts.GetToken();
      s := new Socket(tk);
      s.On("connect", ConnectHandler(instance));
      s.On("connect_error", ConnectErrorHandler(instance));
      s.On("disconnect", DisconnectHandler(instance));
      socket := s;
    }

    /** An event delivered by socket `s`: only a handler of this provider
        that is still registered acts on it. */
    method Receive(s: Socket, instance: nat, ev: SocketEvent)
      requires s.Valid()
      modifies this, s
      ensures Hears(old(s.registry), ev, instance) ==> State() == AfterEvent(old(State()), ev)
      ensures !Hears(old(s.registry), ev, instance) ==> State() == old(State())
      ensures s.active == if Hears(old(s.registry), ev, instance) && Reconnects(ev) then true else old(s.active)
      ensures s.Valid() && s.registry == old(s.registry) && s.emitted == old(s.emitted)
      ensures socket == old(socket)
    {
      if Hears(s.registry, ev, instance) {
        match ev
        case Connect =>
          isConnected := true;
          error := None;
        case ConnectError =>
          error := Some(ConnectErrorMessage);
          isConnected := false;
        case Disconnect(reason) =>
          isConnected := false;
          if reason == ServerDisconnect {
            s.Connect();
          }
      }
    }

    /** The effect cleanup. */
    method Cleanup(s: Socket, instance: nat)
      requires s.Valid()
      modifies this, s
      ensures s.Valid() && s.registry == Unsubscribed(old(s.registry), instance)
      ensures !s.active && s.emitted == old(s.emitted)
      ensures socket == null && !isConnected && error == old(error)
    {
      s.Off("connect", ConnectHandler(instance));
      s.Off("connect_error", ConnectErrorHandler(instance));
      s.Off("disconnect", DisconnectHandler(instance));
      s.Disconnect();
      socket := null;
      isConnected := false;
    }
  }

  /** The `useSocketEvent` effect: nothing while there is no socket. */
  method SubscribeEvent(socket: Socket?, event: string, h: Handler)
    requires socket != null ==> socket.Valid()
    modifies socket
    ensures socket != null ==> socket.Valid() && socket.registry == AddListener(old(socket.registry), event, h)
    ensures socket != null ==> socket.active == old(socket.active) && socket.emitted == old(socket.emitted)
  {
    if socket != null {
      socket.On(event, h);
    }
  }

  /** Its cleanup unregisters the same handler. */
  method UnsubscribeEvent(socket: Socket, event: string, h: Handler)
    requires socket.Valid()
    modifies socket
    ensures socket.Valid() && socket.registry == RemoveListener(old(socket.registry), event, h)
    ensures socket.active == old(socket.active) && socket.emitted == old(socket.emitted)
  {
    socket.Off(event, h);
  }
}
