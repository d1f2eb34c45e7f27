/** `src/hooks/useNotifications.ts`: the notification list fed by five
    socket events, with its read, delete and add operations and its unread
    count. Ids and timestamps come from the clock, which is a parameter
    `now` (milliseconds since the epoch). */
module Notifications {
  import opened Wrappers
  import opened Text
  import opened SocketIo
  import opened NotificationLists

  datatype Kind = ConnectionKind | LikeKind | MessageKind | SecurityKind | SystemKind

  /** Everything of a notification but its id and read flag. */
  datatype Notice = Notice(
    kind: Kind,
    title: string,
    message: string,
    timestamp: int,
    actionUrl: Option<string>,
    fromUser: Option<string>,
    postId: Option<string>)

  type Notification = Entry<Notice>

  /** The events the hook listens for, with the fields it reads. */
  datatype NotificationEvent =
    | NewNotification(data: Notice)
    | ConnectionRequest(fromUsername: string)
    | LikeReceived(fromUsername: string, likedPostId: string)
    | MessageReceived(fromUsername: string, messagePreview: string)
    | SecurityAlert(alert: string)

  function EventName(ev: NotificationEvent): string {
    match ev
    case NewNotification(_) => "notification:new"
    case ConnectionRequest(_) => "notification:connection_request"
    case LikeReceived(_, _) => "notification:like"
    case MessageReceived(_, _) => "notification:message"
    case SecurityAlert(_) => "notification:security"
  }

  /** The notice each event becomes; the mapped events are stamped `now`. */
  function ToNotice(ev: NotificationEvent, now: int): (n: Notice)
    ensures ev.NewNotification? ==> n == ev.data
    ensures !ev.NewNotification? ==> n.timestamp == now
    ensures ev.ConnectionRequest? ==> n.kind == ConnectionKind && n.actionUrl == None
    ensures ev.ConnectionRequest? ==> n.message == ev.fromUsername + " wants to connect with you"
    ensures ev.ConnectionRequest? ==> n.fromUser == Some(ev.fromUsername)
    ensures ev.LikeReceived? ==> n.kind == LikeKind && n.message == ev.fromUsername + " liked your post"
    ensures ev.LikeReceived? ==> n.fromUser == Some(ev.fromUsername) && n.postId == Some(ev.likedPostId)
    ensures ev.MessageReceived? ==> n.kind == MessageKind && n.message == ev.fromUsername + ": " + ev.messagePreview
    ensures ev.MessageReceived? ==> n.actionUrl == Some("/messages/" + ev.fromUsername) && n.fromUser == Some(ev.fromUsername)
    ensures ev.SecurityAlert? ==> n.kind == SecurityKind && n.message == ev.alert && n.fromUser == None && n.actionUrl == None
  {
    match ev
    case NewNotification(data) => data
    case ConnectionRequest(from) =>
      Notice(ConnectionKind, "New Connection Request", from + " wants to connect with you", now, None, Some(from), None)
    case LikeReceived(from, postId) =>
      Notice(LikeKind, "Your post is getting love", from + " liked your post", now, None, Some(from), Some(postId))
    case MessageReceived(from, preview) =>
      Notice(MessageKind, "New message", from + ": " + preview, now, Some("/messages/" + from), Some(from), None)
    case SecurityAlert(alert) =>
      Notice(SecurityKind, "Security Alert", alert, now, None, None, None)
  }

  /** `handleNewNotification` / `addNotification`: the id is the decimal
      clock value and the entry starts unread. */
  function Received(now: nat, data: Notice): (n: Notification)
    ensures n.id == NatToString(now) && !n.read && n.payload == data
  {
    Entry(NatToString(now), false, data)
  }

  /** Two notifications get the same id exactly when they arrive in the same
      millisecond; then `markAsRead` and `deleteNotification` treat them as
      one. */
  lemma ReceivedIds(now1: nat, now2: nat, a: Notice, b: Notice)
    ensures Received(now1, a).id == Received(now2, b).id <==> now1 == now2
  {
    if NatToString(now1) == NatToString(now2) {
      NatToStringInjective(now1, now2);
    }
  }

  /** A received notification is put in front of the others, unread, and
      the unread count grows by one. */
  lemma ReceivedCount(ns: seq<Notification>, now: nat, data: Notice)
    ensures Prepend(ns, Received(now, data))[1..] == ns
    ensures UnreadCount(Prepend(ns, Received(now, data))) == UnreadCount(ns) + 1
  {
    PrependCount(ns, Received(now, data));
  }

  /** A value as the effect sees it: `null` or an object with its members. */
  datatype JsValue = JsNull | JsObject(members: set<string>)

  predicate JsTruthy(v: JsValue) {
    v.JsObject?
  }

  /** What `useSocket()` returns: an object holding `socket`, `isConnected`
      and `error`, whatever their values. */
  const HookResult: JsValue := JsObject({"socket", "isConnected", "error"})

  datatype Thrown = TypeError(message: string)

  datatype EffectOutcome = NoSocket | Registered

  /** The effect as written, applied to the value it calls `socket`: an
      early return only for a falsy value, then `socket.on(...)`, which
      throws unless the value has an `on` member. */
  function EffectAsWritten(socket: JsValue): (r: Result<EffectOutcome, Thrown>)
    ensures r == Success(NoSocket) <==> !JsTruthy(socket)
    ensures r.Failure? <==> JsTruthy(socket) && "on" !in socket.members
  {
    if !JsTruthy(socket) then Success(NoSocket)
    else if "on" in socket.members then Success(Registered)
    else Failure(TypeError("socket.on is not a function"))
  }

  /** Given the hook's result object, the guard never returns early and the
      first registration throws: no notification event is ever heard. */
  lemma EffectAsWrittenThrows()
    ensures EffectAsWritten(HookResult).Failure?
    ensures JsTruthy(HookResult)
  {
    assert "on" !in HookResult.members;
  }

  function NewHandler(instance: nat): Handler {
    Handler("handleNewNotification", instance)
  }

  function EventHandler(event: string, instance: nat): Handler {
    Handler(event, instance)
  }

  const MappedEvents: seq<string> := ["notification:connection_request", "notification:like", "notification:message", "notification:security"]

  /** The five registrations, made on the socket itself. */
  function NotificationsSubscribed(reg: Registry, instance: nat): (r: Registry)
    ensures WellFormed(reg) ==> WellFormed(r)
    ensures Listeners(r, "notification:new") == Listeners(reg, "notification:new") + [NewHandler(instance)]
    ensures forall i :: 0 <= i < |MappedEvents| ==> Listeners(r, MappedEvents[i]) == Listeners(reg, MappedEvents[i]) + [EventHandler(MappedEvents[i], instance)]
  {
    var r0 := AddListener(reg, "notification:new", NewHandler(instance));
    var r1 := AddListener(r0, MappedEvents[0], EventHandler(MappedEvents[0], instance));
    var r2 := AddListener(r1, MappedEvents[1], EventHandler(MappedEvents[1], instance));
    var r3 := AddListener(r2, MappedEvents[2], EventHandler(MappedEvents[2], instance));
    AddListener(r3, MappedEvents[3], EventHandler(MappedEvents[3], instance))
  }

  /** The cleanup: one `off` with the handler, four without. */
  function NotificationsCleanup(reg: Registry, instance: nat): (r: Registry)
    ensures WellFormed(reg) ==> WellFormed(r)
    ensures Listeners(r, "notification:new") == RemoveFirst(Listeners(reg, "notification:new"), NewHandler(instance))
    ensures forall i :: 0 <= i < |MappedEvents| ==> Listeners(r, MappedEvents[i]) == []
    ensures forall e :: e != "notification:new" && e !in MappedEvents ==> Listeners(r, e) == Listeners(reg, e)
  {
    var r0 := RemoveListener(reg, "notification:new", NewHandler(instance));
    var r1 := RemoveAllListeners(r0, MappedEvents[0]);
    var r2 := RemoveAllListeners(r1, MappedEvents[1]);
    var r3 := RemoveAllListeners(r2, MappedEvents[2]);
    RemoveAllListeners(r3, MappedEvents[3])
  }

  /** Cleaning up after a mount gives back the `notification:new`
      listeners, but leaves the four other events with no listener at all:
      listeners other components registered for them are dropped too. */
  lemma CleanupAfterSubscribe(reg: Registry, instance: nat)
    requires NewHandler(instance) !in Listeners(reg, "notification:new")
    ensures Listeners(NotificationsCleanup(NotificationsSubscribed(reg, instance), instance), "notification:new") == Listeners(reg, "notification:new")
    ensures forall i :: 0 <= i < |MappedEvents| ==> Listeners(NotificationsCleanup(NotificationsSubscribed(reg, instance), instance), MappedEvents[i]) == []
  {
    RemoveFirstAppended(Listeners(reg, "notification:new"), NewHandler(instance));
  }

  /** The corrected effect: `const { socket } = useSocket()`, nothing
      without a socket, the five registrations otherwise. */
  method Subscribe(socket: Socket?, instance: nat)
    requires socket != null ==> socket.Valid()
    modifies socket
    ensures socket != null ==> socket.Valid() && socket.registry == NotificationsSubscribed(old(socket.registry), instance)
    ensures socket != null ==> socket.active == old(socket.active) && socket.emitted == old(socket.emitted)
  {
    if socket != null {
      socket.On("notification:new", NewHandler(instance));
      socket.On(MappedEvents[0], EventHandler(MappedEvents[0], instance));
      socket.On(MappedEvents[1], EventHandler(MappedEvents[1], instance));
      socket.On(MappedEvents[2], EventHandler(MappedEvents[2], instance));
      socket.On(MappedEvents[3], EventHandler(MappedEvents[3], instance));
    }
  }

  method Unsubscribe(socket: Socket, instance: nat)
    requires socket.Valid()
    modifies socket
    ensures socket.Valid() && socket.registry == NotificationsCleanup(old(socket.registry), instance)
    ensures socket.active == old(socket.active) && socket.emitted == old(socket.emitted)
  {
    socket.Off("notification:new", NewHandler(instance));
    socket.OffAll(MappedEvents[0]);
    socket.OffAll(MappedEvents[1]);
    socket.OffAll(MappedEvents[2]);
    socket.OffAll(MappedEvents[3]);
  }

  /** The hook's list state. */
  class NotificationsHook {
    var notifications: seq<Notification>

    constructor()
      ensures notifications == []
    {
      notifications := [];
    }

    function Unread(): nat
      reads this
    {
      UnreadCount(notifications)
    }

    /** An event heard at time `now`. */
    method Receive(ev: NotificationEvent, now: nat)
      modifies this
      ensures notifications == Prepend(old(notifications), Received(now, ToNotice(ev, now)))
    {
      notifications := Prepend(notifications, Received(now, ToNotice(ev, now)));
    }

    method MarkAsRead(id: string)
      modifies this
      ensures notifications == NotificationLists.MarkAsRead(old(notifications), id)
    {
      notifications := NotificationLists.MarkAsRead(notifications, id);
    }

    method MarkAllAsRead()
      modifies this
      ensures notifications == NotificationLists.MarkAllAsRead(old(notifications))
      ensures Unread() == 0
    {
      notifications := NotificationLists.MarkAllAsRead(notifications);
      MarkAllClearsCount(old(notifications));
    }

    method DeleteNotification(id: string)
      modifies this
      ensures notifications == RemoveId(old(notifications), id)
    {
      notifications := RemoveId(notifications, id);
    }

    method AddNotification(now: nat, data: Notice)
      modifies this
      ensures notifications == Prepend(old(notifications), Received(now, data))
      ensures Unread() == old(Unread()) + 1
    {
      ReceivedCount(notifications, now, data);
      notifications := Prepend(notifications, Received(now, data));
    }
  }
}
