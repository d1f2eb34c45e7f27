/** `src/hooks/socket-provider.tsx`: a provider that holds a socket only
    while there is a current user. The socket authenticates with the
    "token" entry of the browser storage, read directly rather than through
    the token service's cache. */
module SocketProvider {
  import opened Wrappers
  import opened SocketIo
  import opened Credentials
  import opened SocketContext

  function ProviderHandler(ev: SocketEvent, instance: nat): Handler {
    Handler("provider:" + EventName(ev), instance)
  }

  /** Only `connect` and `disconnect` have handlers here. */
  predicate ProviderHears(reg: Registry, ev: SocketEvent, instance: nat) {
    !ev.ConnectError? && ProviderHandler(ev, instance) in Listeners(reg, EventName(ev))
  }

  function ProviderSubscribed(reg: Registry, instance: nat): (r: Registry)
    ensures WellFormed(reg) ==> WellFormed(r)
  {
    AddListener(AddListener(reg, "connect", ProviderHandler(Connect, instance)), "disconnect", ProviderHandler(Disconnect(""), instance))
  }

  /** `localStorage.getItem("token")`. */
  function StoredAuth(storage: map<string, string>): (t: Option<string>)
    ensures t.Some? <==> TokenKey in storage
    ensures t.Some? ==> t.value == storage[TokenKey]
  {
    if TokenKey in storage then Some(storage[TokenKey]) else None
  }

  /** After mounting, the provider hears `connect` and `disconnect` but not
      `connect_error`. */
  lemma ProviderSubscribedHears(reg: Registry, instance: nat, ev: SocketEvent)
    ensures ProviderHears(ProviderSubscribed(reg, instance), ev, instance) <==> !ev.ConnectError?
  {
    var r1 := AddListener(reg, "connect", ProviderHandler(Connect, instance));
    assert Listeners(ProviderSubscribed(reg, instance), "connect") == Listeners(r1, "connect");
    assert ev.Disconnect? ==> ProviderHandler(ev, instance) == ProviderHandler(Disconnect(""), instance);
  }

  class ProviderState {
    var socket: Socket?
    var isConnected: bool

    constructor()
      ensures socket == null && !isConnected
    {
      socket := null;
      isConnected := false;
    }

    /** The effect, run for the current user (`userPresent`). With a user a
        new socket is opened and kept; without one an existing socket is
        closed and dropped, and without either nothing happens. */
    method Effect(userPresent: bool, ts: TokenService, instance: nat) returns (created: Socket?)
      modifies this, socket
      ensures userPresent ==> created != null && fresh(created) && socket == created && created.Valid()
      ensures userPresent ==> created.authToken == StoredAuth(ts.storage) && created.registry == ProviderSubscribed(map[], instance)
      ensures userPresent ==> created.active && created.emitted == [] && isConnected == old(isConnected)
      ensures !userPresent ==> created == null && socket == null
      ensures !userPresent && old(socket) != null ==> !old(socket).active && !isConnected
      ensures !userPresent && old(socket) != null ==> old(socket).registry == old(socket.registry)
      ensures !userPresent && old(socket) == null ==> isConnected == old(isConnected)
      ensures userPresent && old(socket) != null ==> old(socket).active == old(socket.active)
      ensures userPresent && old(socket) != null ==> old(socket).registry == old(socket.registry)
      ensures userPresent && old(socket) != null ==> old(socket).emitted == old(socket.emitted)
      ensures !userPresent && old(socket) != null ==> old(socket).emitted == old(socket.emitted)
    {
      if userPresent {
        created := new Socket(StoredAuth(ts.storage));
        created.On("connect", ProviderHandler(Connect, instance));
        created.On("disconnect", ProviderHandler(Disconnect(""), instance));
        socket := created;
      } else {
        created := null;
        if socket != null {
          socket.Disconnect();
          socket := null;
          isConnected := false;
        }
      }
    }

    /** An event of socket `s`. */
    method Receive(s: Socket, instance: nat, ev: SocketEvent)
      modifies this
      ensures ProviderHears(s.registry, ev, instance) ==> isConnected == ev.Connect?
      ensures !ProviderHears(s.registry, ev, instance) ==> isConnected == old(isConnected)
      ensures socket == old(socket)
    {
      if ProviderHears(s.registry, ev, instance) {
        isConnected := ev.Connect?;
      }
    }

    /** The cleanup returned with a user: `close()` only. The `disconnect`
        handler is still registered, so on a socket that was `connected` the
        client-side disconnect clears `isConnected`. */
    method Cleanup(s: Socket, instance: nat, connected: bool)
      modifies this, s
      ensures !s.active && s.registry == old(s.registry) && s.emitted == old(s.emitted)
      ensures socket == old(socket)
      ensures connected && ProviderHears(old(s.registry), Disconnect(ClientDisconnect), instance) ==> !isConnected
      ensures !(connected && ProviderHears(old(s.registry), Disconnect(ClientDisconnect), instance)) ==>
                isConnected == old(isConnected)
    {
      var hears := connected && ProviderHears(s.registry, Disconnect(ClientDisconnect), instance);
      s.Disconnect();
      if hears {
        isConnected := false;
      }
    }
  }
}
