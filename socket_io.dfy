/** The part of a socket.io client the application relies on: a listener
    registry with `on` / `off` (the component-emitter rules: `off(event, fn)`
    removes the first registration of `fn`, `off(event)` removes every
    listener of the event, and an event left without listeners is dropped),
    whether the client is active, and the packets it has emitted. The
    transport itself is not modelled: incoming events are inputs of the
    components that listen for them. */
module SocketIo {
  import opened Wrappers

  /** A listener function. JavaScript compares functions by identity; a
      closure is identified here by its name and by the effect run
      (`instance`) that created it. */
  datatype Handler = Handler(name: string, instance: nat)

  type Registry = map<string, seq<Handler>>

  /** No event is kept with an empty listener list. */
  ghost predicate WellFormed(reg: Registry) {
    forall e :: e in reg ==> reg[e] != []
  }

  function Listeners(reg: Registry, e: string): seq<Handler> {
    if e in reg then reg[e] else []
  }

  /** The position of the first registration of `h`. */
  function IndexOf(s: seq<Handler>, h: Handler): (i: nat)
    requires h in s
    ensures i < |s| && s[i] == h && h !in s[..i]
  {
    if s[0] == h then 0 else
      assert s == [s[0]] + s[1..];
      var j := IndexOf(s[1..], h);
      assert s[..j + 1] == [s[0]] + s[1..][..j];
      j + 1
  }

  /** Removes the first occurrence of `h` and nothing else. */
  function RemoveFirst(s: seq<Handler>, h: Handler): (r: seq<Handler>)
    ensures h !in s ==> r == s
    ensures h in s ==> r == s[..IndexOf(s, h)] + s[IndexOf(s, h) + 1..]
    ensures h in s ==> multiset(r) == multiset(s) - multiset{h}
  {
    if h in s then
      var i := IndexOf(s, h);
      assert s == s[..i] + [s[i]] + s[i + 1..];
      s[..i] + s[i + 1..]
    else s
  }

  lemma {:induction false} RemoveFirstAppended(s: seq<Handler>, h: Handler)
    requires h !in s
    ensures RemoveFirst(s + [h], h) == s
  {
    assert h in s + [h];
    var i := IndexOf(s + [h], h);
    assert (s + [h])[..i] == s[..i];
    assert (s + [h])[..|s|] == s;
  }

  /** `socket.on(e, h)`: `h` is registered last for `e`; other events keep
      their listeners. */
  function AddListener(reg: Registry, e: string, h: Handler): (r: Registry)
    ensures Listeners(r, e) == Listeners(reg, e) + [h]
    ensures forall e' :: e' != e ==> Listeners(r, e') == Listeners(reg, e')
    ensures WellFormed(reg) ==> WellFormed(r)
  {
    reg[e := Listeners(reg, e) + [h]]
  }

  /** `socket.off(e, h)`. */
  function RemoveListener(reg: Registry, e: string, h: Handler): (r: Registry)
    ensures Listeners(r, e) == RemoveFirst(Listeners(reg, e), h)
    ensures forall e' :: e' != e ==> Listeners(r, e') == Listeners(reg, e')
    ensures WellFormed(reg) ==> WellFormed(r)
  {
    if e !in reg then reg
    else
      var rest := RemoveFirst(reg[e], h);
      if rest == [] then reg - {e} else reg[e := rest]
  }

  /** `socket.off(e)`: every listener of `e`, whoever registered it. */
  function RemoveAllListeners(reg: Registry, e: string): (r: Registry)
    ensures Listeners(r, e) == []
    ensures forall e' :: e' != e ==> Listeners(r, e') == Listeners(reg, e')
    ensures WellFormed(reg) ==> WellFormed(r)
  {
    reg - {e}
  }

  /** Well-formed registries with the same listeners for every event are equal. */
  lemma RegistryExtensional(a: Registry, b: Registry)
    requires WellFormed(a) && WellFormed(b)
    requires forall e :: Listeners(a, e) == Listeners(b, e)
    ensures a == b
  {
    forall e | e in a ensures e in b && a[e] == b[e] {
      assert Listeners(a, e) == a[e];
    }
    forall e | e in b ensures e in a {
      assert Listeners(b, e) == b[e];
    }
  }

  /** Unregistering a handler that was registered just before, and not
      earlier, gives back the registry exactly. */
  lemma OffAfterOn(reg: Registry, e: string, h: Handler)
    requires WellFormed(reg)
    requires h !in Listeners(reg, e)
    ensures RemoveListener(AddListener(reg, e, h), e, h) == reg
  {
    RemoveFirstAppended(Listeners(reg, e), h);
    if e in reg {
      assert reg[e] != [];
      assert RemoveFirst(reg[e] + [h], h) == reg[e];
      MapUpdateTwice(reg, e, reg[e] + [h]);
    } else {
      assert RemoveFirst([h], h) == [];
      MapUpdateRemoved(reg, e, [h]);
    }
  }

  lemma MapUpdateTwice(m: Registry, k: string, v: seq<Handler>)
    requires k in m
    ensures m[k := v][k := m[k]] == m
  {
  }

  lemma MapUpdateRemoved(m: Registry, k: string, v: seq<Handler>)
    requires k !in m
    ensures m[k := v] - {k} == m
  {
  }

  /** A room on the chat server. */
  datatype Room = Room(kind: string, id: string)

  /** The payloads this client emits. */
  datatype Payload = RoomPayload(room: Room) | MessagePayload(content: string, room: Room)

  datatype Packet = Packet(event: string, payload: Payload)

  /** A client socket. `io(url, { auth })` connects at once, so a new socket
      is active; `disconnect()` and its alias `close()` make it inactive and
      `connect()` active again. */
  class Socket {
    var registry: Registry
    var active: bool
    const authToken: Option<string>
    var emitted: seq<Packet>

    ghost predicate Valid()
      reads this
    {
      WellFormed(registry)
    }

    constructor(token: Option<string>)
      ensures Valid() && registry == map[] && active && authToken == token && emitted == []
    {
      registry := map[];
      active := true;
      authToken := token;
      emitted := [];
    }

    method On(e: string, h: Handler)
      requires Valid()
      modifies this
      ensures Valid() && registry == AddListener(old(registry), e, h)
      ensures active == old(active) && emitted == old(emitted)
    {
      registry := AddListener(registry, e, h);
    }

    method Off(e: string, h: Handler)
      requires Valid()
      modifies this
      ensures Valid() && registry == RemoveListener(old(registry), e, h)
      ensures active == old(active) && emitted == old(emitted)
    {
      registry := RemoveListener(registry, e, h);
    }

    method OffAll(e: string)
      requires Valid()
      modifies this
      ensures Valid() && registry == RemoveAllListeners(old(registry), e)
      ensures active == old(active) && emitted == old(emitted)
    {
      registry := RemoveAllListeners(registry, e);
    }

    method Connect()
      modifies this
      ensures active && registry == old(registry) && emitted == old(emitted)
    {
      active := true;
    }

    /** `disconnect()` / `close()`. On a connected socket this also fires
        `"disconnect"` with reason "io client disconnect", synchronously, to
        the listeners still registered. Listeners act on their owners' state,
        so the owner's cleanup delivers that event (see
        `SocketHook.HookState.Cleanup`, `SocketProvider.ProviderState.Cleanup`). */
    method Disconnect()
      modifies this
      ensures !active && registry == old(registry) && emitted == old(emitted)
    {
      active := false;
    }

    method Emit(event: string, payload: Payload)
      modifies this
      ensures emitted == old(emitted) + [Packet(event, payload)]
      ensures registry == old(registry) && active == old(active)
    {
      emitted := emitted + [Packet(event, payload)];
    }
  }
}
