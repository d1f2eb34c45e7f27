/** `src/components/messages/Message.tsx`: the chat screen. Incoming
    messages are appended, history batches are put in front, sending is
    guarded, selecting a user joins its room, and the layout follows the
    window width. */
module Messages {
  import opened Wrappers
  import opened Text
  import opened SocketIo

  datatype ChatUser = ChatUser(id: string, username: string)

  datatype ChatMessage = ChatMessage(id: string, content: string, from: ChatUser, createdAt: string)

  const MobileBreakpoint: int := 900
  const MessageEvent: string := "chat:message"
  const HistoryEvent: string := "chat:messages"
  const JoinEvent: string := "chat:join"

  predicate IsMobileWidth(width: int) {
    width < MobileBreakpoint
  }

  function SingleRoom(id: string): Room {
    Room("single", id)
  }

  /** `socket && selectedUser && message.trim()`. */
  predicate CanSend(hasSocket: bool, selected: Option<ChatUser>, message: string) {
    hasSocket && selected.Some? && Trim(message) != ""
  }

  /** A message can be sent exactly when there is a socket, a selected user
      and at least one character of the input that is not white space. */
  lemma CanSendIff(hasSocket: bool, selected: Option<ChatUser>, message: string)
    ensures CanSend(hasSocket, selected, message) <==>
      hasSocket && selected.Some? && exists i :: 0 <= i < |message| && !IsJsWhitespace(message[i])
  {
    TrimEmpty(message);
  }

  function MessageHandler(instance: nat): Handler { Handler("handleMessage", instance) }
  function HistoryHandler(instance: nat): Handler { Handler("handleMessages", instance) }

  /** The registrations of the effect. */
  function ChatSubscribed(reg: Registry, instance: nat): (r: Registry)
    ensures WellFormed(reg) ==> WellFormed(r)
    ensures Listeners(r, MessageEvent) == Listeners(reg, MessageEvent) + [MessageHandler(instance)]
    ensures Listeners(r, HistoryEvent) == Listeners(reg, HistoryEvent) + [HistoryHandler(instance)]
  {
    AddListener(AddListener(reg, MessageEvent, MessageHandler(instance)), HistoryEvent, HistoryHandler(instance))
  }

  /** The cleanup as written: only the `chat:message` handler is removed. */
  function ChatCleanupAsWritten(reg: Registry, instance: nat): (r: Registry)
    ensures Listeners(r, MessageEvent) == RemoveFirst(Listeners(reg, MessageEvent), MessageHandler(instance))
    ensures Listeners(r, HistoryEvent) == Listeners(reg, HistoryEvent)
  {
    RemoveListener(reg, MessageEvent, MessageHandler(instance))
  }

  /** The history handler survives the cleanup as written. */
  lemma CleanupAsWrittenLeaks(reg: Registry, instance: nat)
    ensures HistoryHandler(instance) in Listeners(ChatCleanupAsWritten(ChatSubscribed(reg, instance), instance), HistoryEvent)
  {
  }

  /** Mounting, cleaning up as written and mounting again (a new socket
      value, or the development double mount) leaves two history handlers on
      the socket: every batch is then put in front twice. */
  lemma RemountDoublesHistory()
    ensures Listeners(ChatSubscribed(ChatCleanupAsWritten(ChatSubscribed(map[], 0), 0), 1), HistoryEvent)
      == [HistoryHandler(0), HistoryHandler(1)]
  {
    var r0 := ChatSubscribed(map[], 0);
    var c0 := ChatCleanupAsWritten(r0, 0);
    assert Listeners(r0, HistoryEvent) == [HistoryHandler(0)];
    assert Listeners(c0, HistoryEvent) == Listeners(r0, HistoryEvent);
  }

  /** The cleanup that removes both handlers. */
  function ChatCleanup(reg: Registry, instance: nat): (r: Registry)
    ensures WellFormed(reg) ==> WellFormed(r)
    ensures Listeners(r, MessageEvent) == RemoveFirst(Listeners(reg, MessageEvent), MessageHandler(instance))
    ensures Listeners(r, HistoryEvent) == RemoveFirst(Listeners(reg, HistoryEvent), HistoryHandler(instance))
    ensures forall e :: e != MessageEvent && e != HistoryEvent ==> Listeners(r, e) == Listeners(reg, e)
  {
    RemoveListener(RemoveListener(reg, MessageEvent, MessageHandler(instance)), HistoryEvent, HistoryHandler(instance))
  }

  lemma CleanupListeners(reg: Registry, instance: nat, e: string)
    requires MessageHandler(instance) !in Listeners(reg, MessageEvent)
    requires HistoryHandler(instance) !in Listeners(reg, HistoryEvent)
    ensures Listeners(ChatCleanup(ChatSubscribed(reg, instance), instance), e) == Listeners(reg, e)
  {
    var r1 := AddListener(reg, MessageEvent, MessageHandler(instance));
    var r2 := AddListener(r1, HistoryEvent, HistoryHandler(instance));
    var u1 := RemoveListener(r2, MessageEvent, MessageHandler(instance));
    if e == MessageEvent {
      RemoveFirstAppended(Listeners(reg, e), MessageHandler(instance));
      assert Listeners(r2, e) == Listeners(r1, e);
    } else if e == HistoryEvent {
      RemoveFirstAppended(Listeners(reg, e), HistoryHandler(instance));
      assert Listeners(u1, e) == Listeners(r2, e);
    }
  }

  /** With both handlers removed, mount and cleanup leave the registry as
      they found it. */
  lemma ChatCleanupRestores(reg: Registry, instance: nat)
    requires WellFormed(reg)
    requires MessageHandler(instance) !in Listeners(reg, MessageEvent)
    requires HistoryHandler(instance) !in Listeners(reg, HistoryEvent)
    ensures ChatCleanup(ChatSubscribed(reg, instance), instance) == reg
    ensures HistoryHandler(instance) !in Listeners(ChatCleanup(ChatSubscribed(reg, instance), instance), HistoryEvent)
  {
    var u := ChatCleanup(ChatSubscribed(reg, instance), instance);
    forall e ensures Listeners(u, e) == Listeners(reg, e) {
      CleanupListeners(reg, instance, e);
    }
    RegistryExtensional(u, reg);
  }

  /** The `[socket]` effect: nothing without a socket. */
  method SubscribeChat(socket: Socket?, instance: nat)
    requires socket != null ==> socket.Valid()
    modifies socket
    ensures socket != null ==> socket.Valid() && socket.registry == ChatSubscribed(old(socket.registry), instance)
    ensures socket != null ==> socket.active == old(socket.active) && socket.emitted == old(socket.emitted)
  {
    if socket != null {
      socket.On(MessageEvent, MessageHandler(instance));
      socket.On(HistoryEvent, HistoryHandler(instance));
    }
  }

  /** Its cleanup, with both handlers removed. */
  method UnsubscribeChat(socket: Socket, instance: nat)
    requires socket.Valid()
    modifies socket
    ensures socket.Valid() && socket.registry == ChatCleanup(old(socket.registry), instance)
    ensures socket.active == old(socket.active) && socket.emitted == old(socket.emitted)
  {
    socket.Off(MessageEvent, MessageHandler(instance));
    socket.Off(HistoryEvent, HistoryHandler(instance));
  }

  /** The screen's state. */
  class ChatScreen {
    var message: string
    var messages: seq<ChatMessage>
    var selectedUser: Option<ChatUser>
    var isMobile: bool
    var showSidebar: bool

    /** Outside the mobile layout the user list is always shown. */
    ghost predicate Layout()
      reads this
    {
      !isMobile ==> showSidebar
    }

    constructor(width: int)
      ensures message == "" && messages == [] && selectedUser == None
      ensures isMobile == IsMobileWidth(width) && showSidebar && Layout()
    {
      message := "";
      messages := [];
      selectedUser := None;
      isMobile := IsMobileWidth(width);
      showSidebar := true;
    }

    /** `handleResize`. */
    method Resize(width: int)
      modifies this
      ensures isMobile == IsMobileWidth(width)
      ensures showSidebar == if isMobile then old(showSidebar) else true
      ensures Layout()
      ensures message == old(message) && messages == old(messages) && selectedUser == old(selectedUser)
    {
      var isMobileView := IsMobileWidth(width);
      isMobile := isMobileView;
      if !isMobileView {
        showSidebar := true;
      }
    }

    /** `handleMessage`: appended at the end. */
    method ReceiveMessage(m: ChatMessage)
      modifies this
      ensures messages == old(messages) + [m]
      ensures message == old(message) && selectedUser == old(selectedUser)
      ensures isMobile == old(isMobile) && showSidebar == old(showSidebar)
    {
      messages := messages + [m];
    }

    /** `handleMessages`: the batch goes in front, in its own order. */
    method ReceiveHistory(batch: seq<ChatMessage>)
      modifies this
      ensures messages == batch + old(messages)
      ensures message == old(message) && selectedUser == old(selectedUser)
      ensures isMobile == old(isMobile) && showSidebar == old(showSidebar)
    {
      messages := batch + messages;
    }

    /** `onMessageChange`. */
    method EditMessage(text: string)
      modifies this
      ensures message == text && messages == old(messages) && selectedUser == old(selectedUser)
      ensures isMobile == old(isMobile) && showSidebar == old(showSidebar)
    {
      message := text;
    }

    /** `sendMessage`: the untrimmed input goes to the selected user's room
        and the input is cleared; the list waits for the server's echo. */
    method SendMessage(socket: Socket?) returns (sent: bool)
      modifies this, socket
      ensures sent <==> CanSend(socket != null, old(selectedUser), old(message))
      ensures sent ==> socket.emitted == old(socket.emitted) + [Packet(MessageEvent, MessagePayload(old(message), SingleRoom(old(selectedUser).value.id)))]
      ensures sent ==> message == ""
      ensures !sent ==> message == old(message)
      ensures socket != null && !sent ==> socket.emitted == old(socket.emitted)
      ensures socket != null ==> socket.registry == old(socket.registry) && socket.active == old(socket.active)
      ensures messages == old(messages) && selectedUser == old(selectedUser)
      ensures isMobile == old(isMobile) && showSidebar == old(showSidebar)
    {
      if !CanSend(socket != null, selectedUser, message) {
        return false;
      }
      socket.Emit(MessageEvent, MessagePayload(message, SingleRoom(selectedUser.value.id)));
      message := "";
      sent := true;
    }

    /** `handleSelectUser`, with `joinChat` inlined. */
    method SelectUser(socket: Socket?, user: ChatUser)
      requires Layout()
      modifies this, socket
      ensures selectedUser == Some(user)
      ensures socket != null ==> socket.emitted == old(socket.emitted) + [Packet(JoinEvent, RoomPayload(SingleRoom(user.id)))]
      ensures socket != null ==> socket.registry == old(socket.registry) && socket.active == old(socket.active)
      ensures showSidebar == if isMobile then false else old(showSidebar)
      ensures Layout()
      ensures message == old(message) && messages == old(messages) && isMobile == old(isMobile)
    {
      selectedUser := Some(user);
      if socket != null {
        socket.Emit(JoinEvent, RoomPayload(SingleRoom(user.id)));
      }
      if isMobile {
        showSidebar := false;
      }
    }

    /** `handleBackToUsers`. */
    method BackToUsers()
      modifies this
      ensures showSidebar && Layout()
      ensures message == old(message) && messages == old(messages)
      ensures selectedUser == old(selectedUser) && isMobile == old(isMobile)
    {
      showSidebar := true;
    }
  }
}
