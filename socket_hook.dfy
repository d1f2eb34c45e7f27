/** `src/hooks/useSocket.ts`: the standalone hook. Its handlers move the
    connection state as the provider's do, but a server disconnect is never
    followed by a reconnect, and the cleanup neither unregisters the
    handlers nor resets `isConnected`. */
module SocketHook {
  import opened Wrappers
  import opened SocketIo
  import opened Credentials
  import opened SocketContext

  /** The anonymous handlers of effect run `instance`. */
  function HookHandler(ev: SocketEvent, instance: nat): Handler {
    Handler("useSocket:" + EventName(ev), instance)
  }

  predicate HookHears(reg: Registry, ev: SocketEvent, instance: nat) {
    HookHandler(ev, instance) in Listeners(reg, EventName(ev))
  }

  /** The registrations made at mount. */
  function HookSubscribed(reg: Registry, instance: nat): (r: Registry)
    ensures WellFormed(reg) ==> WellFormed(r)
  {
    var r1 := AddListener(reg, "connect", HookHandler(Connect, instance));
    var r2 := AddListener(r1, "connect_error", HookHandler(ConnectError, instance));
    AddListener(r2, "disconnect", HookHandler(Disconnect(""), instance))
  }

  /** Every event reaches the hook once it is mounted. */
  lemma HookSubscribedHears(reg: Registry, instance: nat, ev: SocketEvent)
    ensures HookHears(HookSubscribed(reg, instance), ev, instance)
  {
    var r1 := AddListener(reg, "connect", HookHandler(Connect, instance));
    var r2 := AddListener(r1, "connect_error", HookHandler(ConnectError, instance));
    assert Listeners(HookSubscribed(reg, instance), "connect") == Listeners(r1, "connect");
    assert Listeners(HookSubscribed(reg, instance), "connect_error") == Listeners(r2, "connect_error");
    assert HookHandler(ev, instance) == HookHandler(Disconnect(""), instance) || !ev.Disconnect?;
  }

  class HookState {
    var socket: Socket?
    var isConnected: bool
    var error: Option<string>

    function State(): Connection
      reads this
    {
      Connection(isConnected, error)
    }

    constructor()
      ensures socket == null && State() == Initial
    {
      socket := null;
      isConnected := false;
      error := None;
    }

    method Mount(ts: TokenService, instance: nat) returns (s: Socket)
      modifies this, ts
      ensures fresh(s) && socket == s && s.Valid()
      ensures ts.State() == AfterGet(old(ts.State())).state
      ensures s.authToken == AfterGet(old(ts.State())).token
      ensures s.registry == HookSubscribed(map[], instance)
      ensures s.active && s.emitted == []
      ensures State() == old(State())
    {
      var tk := ts.GetToken();
      s := new Socket(tk);
      s.On("connect", HookHandler(Connect, instance));
      s.On("connect_error", HookHandler(ConnectError, instance));
      s.On("disconnect", HookHandler(Disconnect(""), instance));
      socket := s;
    }

    /** An event of socket `s`; the socket is never asked to reconnect. */
    method Receive(s: Socket, instance: nat, ev: SocketEvent)
      requires s.Valid()
      modifies this
      ensures HookHears(s.registry, ev, instance) ==> State() == AfterEvent(old(State()), ev)
      ensures !HookHears(s.registry, ev, instance) ==> State() == old(State())
      ensures socket == old(socket)
    {
      if HookHears(s.registry, ev, instance) {
        match ev
        case Connect =>
          isConnected := true;
          error := None;
        case ConnectError =>
          error := Some(ConnectErrorMessage);
          isConnected := false;
        case Disconnect(_) =>
          isConnected := false;
      }
    }

    /** The cleanup: `disconnect()`, then a null socket. The handlers are
        still registered, so on a socket that was `connected` the
        client-side disconnect reaches this hook's `disconnect` handler. */
    method Cleanup(s: Socket, instance: nat, connected: bool)
      modifies this, s
      ensures !s.active && s.registry == old(s.registry) && s.emitted == old(s.emitted)
      ensures socket == null
      ensures connected && HookHears(old(s.registry), Disconnect(ClientDisconnect), instance) ==>
                State() == AfterEvent(old(State()), Disconnect(ClientDisconnect))
      ensures !(connected && HookHears(old(s.registry), Disconnect(ClientDisconnect), instance)) ==>
                State() == old(State())
    {
      var hears := connected && HookHears(s.registry, Disconnect(ClientDisconnect), instance);
      s.Disconnect();
      if hears {
        isConnected := false;
      }
      socket := null;
    }
  }
}
