/**
 The agent dashboard's session (frontend/dashboard/app.js) as pure
 transitions: the channel tab, the selected conversation, the message pane,
 the notification centre, the customer panel, the reply draft and the push
 socket. Network results, `confirm` answers, stored values and browser
 capabilities are inputs; fetches, alerts, desktop notifications and timers
 are returned as effects.
 */
module DashboardSession {

  import opened JsText
  import N = Notifications
  import opened DashboardView

  /** The message pane: missing from the page, or the bubbles it shows. */
  datatype Pane = Detached | Attached(bubbles: seq<Bubble>)

  function Append(p: Pane, b: Bubble): (r: Pane)
    ensures r.Attached? <==> p.Attached?
    ensures r.Attached? ==> r.bubbles == p.bubbles + [b]
  {
    match p
    case Detached => Detached
    case Attached(bs) => Attached(bs + [b])
  }

  /** `innerHTML = ""` on the pane. */
  function Cleared(p: Pane): (r: Pane)
    ensures r.Attached? <==> p.Attached?
    ensures r.Attached? ==> r.bubbles == []
  {
    if p.Attached? then Attached([]) else Detached
  }

  /** The number of bubbles shown (none when the pane is missing). */
  function Shown(p: Pane): nat {
    if p.Attached? then |p.bubbles| else 0
  }

  datatype CustomerPanel = PanelHidden | PanelShown(view: CustomerView)

  datatype ReadyState = Connecting | Open | Closed

  /** The push socket and the agent id its reconnect closure captured. */
  datatype Socket = NoSocket | Socket(agentId: string, state: ReadyState)

  datatype Session = Session(
    channel: string,
    selected: Option<ConversationId>,
    pane: Pane,
    center: N.Center,
    customerPanel: CustomerPanel,
    draft: string,
    sendDisabled: bool,
    socket: Socket)

  /** What the browser supplies: stored values, capabilities and the clock. */
  datatype Environment = Environment(
    token: Option<string>,
    agentId: Option<string>,
    notificationSupported: bool,
    permission: N.Permission,
    now: int,
    timestamp: string)

  /** What a transition asks of the outside world, in order. */
  datatype Effect =
    | RefreshList(channel: Option<string>)
    | ReloadMessages(selection: Option<ConversationId>)
    | RaiseDesktop(desktop: N.Desktop)
    | PostReply(conversationId: ConversationId, text: string)
    | DeleteRequest(conversationId: ConversationId)
    | Alert(text: string)
    | OpenSocket(url: string)
    | CloseSocket
    | ScheduleReconnect(delayMs: nat, agentId: string)

  datatype Step = Step(session: Session, effects: seq<Effect>)

  const InitialSession: Session :=
    Session("all", None, Attached([]), N.Center([], false), PanelHidden, "", false, NoSocket)

  /* ---------------- push events ---------------- */

  /** A message embedded in a push event or returned by the messages endpoint. */
  datatype Message = Message(
    content: string,
    senderType: string,
    senderId: Option<int>,
    senderName: Option<string>,
    profileImage: Option<string>)

  /**
   A `conversation_id` as a frame carries it: absent (`undefined`), the JSON
   `null`, or a number.
   */
  datatype WireId = Missing | Null | Id(n: ConversationId)

  /** What a notification record keeps of an id: `null` and `undefined` are both falsy and render alike. */
  function Known(id: WireId): (r: Option<ConversationId>)
    ensures r.Some? <==> id.Id?
    ensures r.Some? ==> r.value == id.n
  {
    if id.Id? then Some(id.n) else None
  }

  /** A parsed push envelope; fields a type does not use are simply ignored. */
  datatype Payload = Payload(
    kind: string,
    conversationId: WireId,
    message: Option<Message>,
    customerName: Option<string>,
    profileImage: Option<string>)

  /** One WebSocket frame: a JSON envelope, or text that does not parse. */
  datatype Frame = Parsed(payload: Payload) | Unparseable

  /**
   `currentConversationId === payload.conversation_id`: strict equality. The
   selection is `null` when nothing is selected, so a frame carrying
   `"conversation_id": null` matches exactly then, and a frame without the
   field (`undefined`) matches nothing.
   */
  predicate IsOpen(s: Session, target: WireId) {
    match target
    case Missing => false
    case Null => s.selected.None?
    case Id(n) => s.selected == Some(n)
  }

  /** The list refresh every push handler starts with. */
  function RefreshCurrent(s: Session): Effect {
    RefreshList(Some(s.channel))
  }

  /**
   `handleNewCustomerMessage`: the list is refreshed; a message for the open
   conversation is appended to the pane as a customer bubble (nothing when
   the event carries no message); any other event becomes one notification.
   */
  function HandleNewCustomerMessage(s: Session, p: Payload, env: Environment): (r: Step)
    ensures |r.effects| >= 1 && r.effects[0] == RefreshCurrent(s)
    ensures r.session.selected == s.selected && r.session.channel == s.channel
    ensures IsOpen(s, p.conversationId) ==> r.session.center == s.center && |r.effects| == 1
    ensures IsOpen(s, p.conversationId) && p.message.Some? && s.pane.Attached? ==>
              r.session.pane == Attached(s.pane.bubbles + [CustomerBubble(p)])
    ensures IsOpen(s, p.conversationId) && p.message.None? ==> r.session == s
    ensures !IsOpen(s, p.conversationId) ==> r.session.pane == s.pane
    ensures !IsOpen(s, p.conversationId) && env.notificationSupported ==>
              && |r.session.center.queue| == |s.center.queue| + 1
              && r.session.center.queue[1..] == s.center.queue
              && !r.session.center.queue[0].read
              && r.session.center.queue[0].conversationId == Known(p.conversationId)
              && r.session.center.queue[0].body == NotificationBody(ContentOf(p))
    ensures !IsOpen(s, p.conversationId) && !env.notificationSupported ==>
              r.session.center == s.center && |r.effects| == 1
  {
    var refresh := [RefreshCurrent(s)];
    if IsOpen(s, p.conversationId) then
      if p.message.Some? then Step(s.(pane := Append(s.pane, CustomerBubble(p))), refresh)
      else Step(s, refresh)
    else
      var shown := N.ShowNotification(
        s.center.queue, env.notificationSupported, env.permission,
        NotificationTitle(p.customerName), NotificationBody(ContentOf(p)),
        Known(p.conversationId), env.now, env.timestamp);
      var desktop := if shown.desktop.Some? then [RaiseDesktop(shown.desktop.value)] else [];
      Step(s.(center := s.center.(queue := shown.queue)), refresh + desktop)
  }

  /** `payload.message?.content`. */
  function ContentOf(p: Payload): Option<string> {
    if p.message.Some? then Some(p.message.value.content) else None
  }

  /** The customer bubble: the name defaults to `고객`, the photo is used when present. */
  function CustomerBubble(p: Payload): (b: Bubble)
    requires p.message.Some?
    ensures b.text == p.message.value.content && b.senderType == "customer"
    ensures b.senderName == Some(OrElse(p.customerName, "고객"))
  {
    MakeBubble(p.message.value.content, "customer", Some(OrElse(p.customerName, "고객")), Nonblank(p.profileImage))
  }

  /** `parseInt(getAgentId())`; a missing id reads as `"null"`, which is `NaN`. */
  function StoredAgentNumber(agentId: Option<string>): Option<int> {
    if agentId.Some? then ParseInt(agentId.value) else None
  }

  /**
   The echo test of `handleAgentReply`: the sender id is truthy and equal to
   the stored agent id. `NaN` equals nothing.
   */
  predicate IsOwnEcho(senderId: Option<int>, agentId: Option<string>) {
    var mine := StoredAgentNumber(agentId);
    TruthyNumber(senderId) && mine.Some? && senderId.value == mine.value
  }

  /** Whether an agent-reply event adds a bubble. */
  predicate ShowsAgentReply(s: Session, p: Payload, env: Environment) {
    && IsOpen(s, p.conversationId)
    && p.message.Some?
    && p.message.value.senderType == "agent"
    && !IsOwnEcho(p.message.value.senderId, env.agentId)
  }

  /**
   `handleAgentReply`: the list is refreshed; an agent message for the open
   conversation that is not the agent's own echo is appended; everything
   else leaves the session as it was.
   */
  function HandleAgentReply(s: Session, p: Payload, env: Environment): (r: Step)
    ensures r.effects == [RefreshCurrent(s)]
    ensures ShowsAgentReply(s, p, env) ==> r.session == s.(pane := Append(s.pane, AgentReplyBubble(p.message.value)))
    ensures !ShowsAgentReply(s, p, env) ==> r.session == s
  {
    var refresh := [RefreshCurrent(s)];
    if ShowsAgentReply(s, p, env) then Step(s.(pane := Append(s.pane, AgentReplyBubble(p.message.value))), refresh)
    else Step(s, refresh)
  }

  function AgentReplyBubble(m: Message): (b: Bubble)
    ensures b.text == m.content && b.senderType == "agent" && b.senderName == Nonblank(m.senderName)
  {
    MakeBubble(m.content, "agent", m.senderName, None)
  }

  /**
   The socket's `onmessage`: dispatch on `type`. A frame that does not parse,
   and any other type, changes nothing and asks for nothing.
   */
  function Dispatch(s: Session, f: Frame, env: Environment): (r: Step)
    ensures r.session.selected == s.selected && r.session.channel == s.channel
    ensures r.session.socket == s.socket && r.session.draft == s.draft
    ensures f.Unparseable? ==> r == Step(s, [])
    ensures f.Parsed? && f.payload.kind == "new_customer_message" ==> r == HandleNewCustomerMessage(s, f.payload, env)
    ensures f.Parsed? && f.payload.kind == "agent_reply_sent" ==> r == HandleAgentReply(s, f.payload, env)
    ensures f.Parsed? && f.payload.kind !in {"new_customer_message", "agent_reply_sent", "conversation_updated"} ==>
              r == Step(s, [])
    ensures f.Parsed? && f.payload.kind == "conversation_updated" ==>
              && r.session == s
              && r.effects == [RefreshCurrent(s)]
                 + (if IsOpen(s, f.payload.conversationId) then [ReloadMessages(s.selected)] else [])
    ensures !(f.Parsed? && f.payload.kind == "new_customer_message") ==> r.session.center == s.center
  {
    match f
    case Unparseable => Step(s, [])
    case Parsed(p) =>
      if p.kind == "new_customer_message" then HandleNewCustomerMessage(s, p, env)
      else if p.kind == "agent_reply_sent" then HandleAgentReply(s, p, env)
      else if p.kind == "conversation_updated" then
        Step(s, [RefreshCurrent(s)] + (if IsOpen(s, p.conversationId) then [ReloadMessages(s.selected)] else []))
      else Step(s, [])
  }

  /** The dashboard's own agent echo never reaches the pane, whatever else holds. */
  lemma OwnEchoSuppressed(s: Session, p: Payload, env: Environment)
    requires p.kind == "agent_reply_sent" && p.message.Some?
    requires TruthyNumber(p.message.value.senderId) && env.agentId.Some?
    requires env.agentId.value == IntToString(p.message.value.senderId.value)
    ensures Dispatch(s, Parsed(p), env).session == s
  {
    ParseIntOfIntToString(p.message.value.senderId.value);
  }

  /**
   A reply in the open conversation that is not the agent's own echo adds
   exactly one agent bubble: one from another agent, one with no or a zero
   sender id, or any reply while no agent id is stored.
   */
  lemma OtherAgentReplyShown(s: Session, p: Payload, env: Environment)
    requires p.kind == "agent_reply_sent" && IsOpen(s, p.conversationId) && s.pane.Attached?
    requires p.message.Some? && p.message.value.senderType == "agent"
    requires !IsOwnEcho(p.message.value.senderId, env.agentId)
    ensures Dispatch(s, Parsed(p), env).session.pane.bubbles == s.pane.bubbles + [AgentReplyBubble(p.message.value)]
  {
  }

  /** A sender id that differs from the stored agent id's `parseInt` is another agent's reply, and is shown. */
  lemma DifferentAgentReplyShown(s: Session, p: Payload, env: Environment)
    requires p.kind == "agent_reply_sent" && IsOpen(s, p.conversationId) && s.pane.Attached?
    requires p.message.Some? && p.message.value.senderType == "agent"
    requires env.agentId.Some? && ParseInt(env.agentId.value) != p.message.value.senderId
    ensures Dispatch(s, Parsed(p), env).session.pane.bubbles == s.pane.bubbles + [AgentReplyBubble(p.message.value)]
  {
    OtherAgentReplyShown(s, p, env);
  }

  /**
   With nothing selected, a customer message whose id is `null` counts as the
   open conversation: it is appended to the pane and raises no notification,
   and an update with a `null` id reloads the messages of `null`.
   */
  lemma NullIdMatchesNoSelection(s: Session, p: Payload, env: Environment)
    requires s.selected.None? && p.conversationId.Null? && s.pane.Attached? && p.message.Some?
    ensures var r := Dispatch(s, Parsed(p.(kind := "new_customer_message")), env);
            r.session == s.(pane := Attached(s.pane.bubbles + [CustomerBubble(p)])) && r.effects == [RefreshCurrent(s)]
    ensures Dispatch(s, Parsed(p.(kind := "conversation_updated")), env).effects
              == [RefreshCurrent(s), ReloadMessages(None)]
  {
  }

  /**
   A customer message without a `conversation_id` never matches, whatever is
   selected: with the `Notification` API it always becomes an unlinked
   notification and the pane is left alone.
   */
  lemma MissingIdAlwaysNotifies(s: Session, p: Payload, env: Environment)
    requires p.kind == "new_customer_message" && p.conversationId.Missing? && env.notificationSupported
    ensures var r := Dispatch(s, Parsed(p), env);
            && r.session.pane == s.pane
            && |r.session.center.queue| == |s.center.queue| + 1
            && r.session.center.queue[0].conversationId.None?
  {
  }

  /* ---------------- traces of push frames ---------------- */

  /** How many frames of a trace become notifications: customer messages for other conversations. */
  function NotifyingFrames(s: Session, frames: seq<Frame>): nat {
    if |frames| == 0 then 0
    else
      var f := frames[0];
      (if f.Parsed? && f.payload.kind == "new_customer_message" && !IsOpen(s, f.payload.conversationId) then 1 else 0)
      + NotifyingFrames(s, frames[1..])
  }

  /** Applies frames one after another. */
  function DispatchAll(s: Session, frames: seq<Frame>, env: Environment): Session
    decreases |frames|
  {
    if |frames| == 0 then s else DispatchAll(Dispatch(s, frames[0], env).session, frames[1..], env)
  }

  /**
   Over any run of push frames the selection and channel never change, and
   with the `Notification` API present the queue grows by exactly the number
   of customer messages for conversations other than the selected one; the
   earlier records stay, in order, at the end.
   */
  lemma {:induction false} DispatchAllNotifies(s: Session, frames: seq<Frame>, env: Environment)
    requires env.notificationSupported
    ensures DispatchAll(s, frames, env).selected == s.selected
    ensures DispatchAll(s, frames, env).channel == s.channel
    ensures |DispatchAll(s, frames, env).center.queue| == |s.center.queue| + NotifyingFrames(s, frames)
    ensures DispatchAll(s, frames, env).center.queue[NotifyingFrames(s, frames)..] == s.center.queue
    decreases |frames|
  {
    if |frames| > 0 {
      var next := Dispatch(s, frames[0], env).session;
      DispatchAllNotifies(next, frames[1..], env);
      assert NotifyingFrames(next, frames[1..]) == NotifyingFrames(s, frames[1..]) by {
        SameSelectionSameCount(s, next, frames[1..]);
      }
      var q := DispatchAll(s, frames, env).center.queue;
      var k := NotifyingFrames(s, frames[1..]);
      if NotifyingFrames(s, frames) == k + 1 {
        assert next.center.queue[1..] == s.center.queue;
        assert q[k + 1..] == q[k..][1..];
      }
    }
  }

  lemma {:induction false} SameSelectionSameCount(s: Session, t: Session, frames: seq<Frame>)
    requires s.selected == t.selected
    ensures NotifyingFrames(s, frames) == NotifyingFrames(t, frames)
  {
    if |frames| > 0 {
      SameSelectionSameCount(s, t, frames[1..]);
    }
  }

  /**
   Without the `Notification` API no push frame ever adds a record, so the
   queue a run ends with is the one it started with.
   */
  lemma {:induction false} DispatchAllWithoutNotifications(s: Session, frames: seq<Frame>, env: Environment)
    requires !env.notificationSupported
    ensures DispatchAll(s, frames, env).center == s.center
    decreases |frames|
  {
    if |frames| > 0 {
      DispatchAllWithoutNotifications(Dispatch(s, frames[0], env).session, frames[1..], env);
    }
  }

  /* ---------------- the socket ---------------- */

  const ReconnectDelayMs: nat := 3000

  function AgentSocketUrl(agentId: string): string {
    "ws://localhost:8000/ws/agent/" + agentId
  }

  /**
   `connectWebSocket(agentId)`: a missing or empty id opens nothing; otherwise
   an open socket is closed first and a new one is opened for this agent.
   */
  function Connect(s: Session, agentId: Option<string>): (r: Step)
    ensures !TruthyText(agentId) ==> r == Step(s, [])
    ensures TruthyText(agentId) ==>
              && r.session == s.(socket := Socket(agentId.value, Connecting))
              && |r.effects| >= 1
              && r.effects[|r.effects| - 1] == OpenSocket(AgentSocketUrl(agentId.value))
              && (CloseSocket in r.effects <==> s.socket.Socket? && s.socket.state == Open)
  {
    if !TruthyText(agentId) then Step(s, [])
    else
      var close := if s.socket.Socket? && s.socket.state == Open then [CloseSocket] else [];
      Step(s.(socket := Socket(agentId.value, Connecting)), close + [OpenSocket(AgentSocketUrl(agentId.value))])
  }

  /** The socket's `onopen`: the socket is open, for the agent it was made for. */
  function SocketOpened(s: Session): (r: Session)
    ensures r.socket.Socket? <==> s.socket.Socket?
    ensures s.socket.Socket? ==> r.socket == Socket(s.socket.agentId, Open)
    ensures r == s.(socket := r.socket)
  {
    if s.socket.Socket? then s.(socket := s.socket.(state := Open)) else s
  }

  /**
   Once a connection has opened, connecting again (for any agent) closes it
   before the new socket is opened.
   */
  lemma ReconnectClosesOpenSocket(s: Session, first: string, second: string)
    requires Truthy(first) && Truthy(second)
    ensures var live := SocketOpened(Connect(s, Some(first)).session);
            && live.socket == Socket(first, Open)
            && Connect(live, Some(second)).effects
               == [CloseSocket, OpenSocket(AgentSocketUrl(second))]
  {
  }

  /**
   The socket's `onclose`: a reconnect with the captured agent id is
   scheduled exactly when the close was not clean.
   */
  function SocketClosed(s: Session, wasClean: bool): (r: Step)
    requires s.socket.Socket?
    ensures r.session == s.(socket := s.socket.(state := Closed))
    ensures !wasClean <==> |r.effects| == 1
    ensures wasClean ==> r.effects == []
    ensures !wasClean ==> r.effects == [ScheduleReconnect(ReconnectDelayMs, s.socket.agentId)]
  {
    var closed := s.(socket := s.socket.(state := Closed));
    if wasClean then Step(closed, []) else Step(closed, [ScheduleReconnect(ReconnectDelayMs, s.socket.agentId)])
  }

  /** The reconnect timer firing: the same agent connects again. */
  lemma ReconnectReopens(s: Session, wasClean: bool)
    requires s.socket.Socket? && Truthy(s.socket.agentId) && !wasClean
    ensures var closed := SocketClosed(s, wasClean);
            var again := Connect(closed.session, Some(closed.effects[0].agentId));
            again.effects == [OpenSocket(AgentSocketUrl(s.socket.agentId))]
            && again.session.socket == Socket(s.socket.agentId, Connecting)
  {
  }

  /* ---------------- selecting, reloading, deleting, switching tabs ---------------- */

  /** A response to a request whose failure only ends the handler. */
  datatype Response<T> = Ok(body: T) | Failed

  /** The two lookups after a conversation is opened. */
  datatype CustomerLookup =
    | ConversationLookupFailed
    | NoLinkedCustomer
    | CustomerLookupFailed
    | CustomerFound(customer: Customer)

  /** A history message as rendered when a conversation is opened. */
  function HistoryBubble(m: Message): (b: Bubble)
    ensures b.text == m.content && b.senderType == m.senderType
    ensures b.senderName == Some(HistorySenderName(m.senderType, m.senderName))
  {
    MakeBubble(m.content, m.senderType, Some(HistorySenderName(m.senderType, m.senderName)), Nonblank(m.profileImage))
  }

  /** The same message as rendered by `loadMessagesForConversation`: no fallback name, no photo. */
  function ReloadBubble(m: Message): (b: Bubble)
    ensures b.text == m.content && b.senderType == m.senderType && b.senderName == Nonblank(m.senderName)
  {
    MakeBubble(m.content, m.senderType, m.senderName, None)
  }

  function PanelAfter(panel: CustomerPanel, lookup: CustomerLookup): CustomerPanel {
    match lookup
    case ConversationLookupFailed => panel
    case NoLinkedCustomer => PanelHidden
    case CustomerLookupFailed => PanelHidden
    case CustomerFound(c) => PanelShown(CustomerViewOf(c))
  }

  /**
   `selectConversation(id)`: the selection moves at once; with a token, a
   successful fetch and a pane on the page, the pane is replaced wholesale by
   the conversation's messages in order and the customer panel follows the
   customer lookup. Otherwise only the selection moves.
   */
  function SelectConversation(
    s: Session, id: ConversationId, env: Environment,
    messages: Response<seq<Message>>, lookup: CustomerLookup): (r: Session)
    ensures r.selected == Some(id)
    ensures r.center == s.center && r.channel == s.channel && r.draft == s.draft
    ensures var loaded := TruthyText(env.token) && messages.Ok? && s.pane.Attached?;
            && (!loaded ==> r == s.(selected := Some(id)))
            && (loaded ==>
                  && r.pane.Attached? && |r.pane.bubbles| == |messages.body|
                  && (forall k :: 0 <= k < |messages.body| ==> r.pane.bubbles[k] == HistoryBubble(messages.body[k]))
                  && r.customerPanel == PanelAfter(s.customerPanel, lookup))
  {
    var s1 := s.(selected := Some(id));
    if !TruthyText(env.token) || messages.Failed? || s.pane.Detached? then s1
    else
      var ms := messages.body;
      var bubbles := seq(|ms|, k requires 0 <= k < |ms| => HistoryBubble(ms[k]));
      s1.(pane := Attached(bubbles), customerPanel := PanelAfter(s.customerPanel, lookup))
  }

  /**
   `loadMessagesForConversation`, run for an updated open conversation: the
   pane is replaced by the messages rendered without fallback names or photos.
   */
  function ReloadMessagesOf(s: Session, env: Environment, messages: Response<seq<Message>>): (r: Session)
    ensures r.selected == s.selected && r.center == s.center && r.customerPanel == s.customerPanel
    ensures !(TruthyText(env.token) && messages.Ok? && s.pane.Attached?) ==> r == s
    ensures TruthyText(env.token) && messages.Ok? && s.pane.Attached? ==>
              r.pane.Attached? && |r.pane.bubbles| == |messages.body|
              && forall k :: 0 <= k < |messages.body| ==> r.pane.bubbles[k] == ReloadBubble(messages.body[k])
  {
    if !TruthyText(env.token) || messages.Failed? || s.pane.Detached? then s
    else
      var ms := messages.body;
      s.(pane := Attached(seq(|ms|, k requires 0 <= k < |ms| => ReloadBubble(ms[k]))))
  }

  /** A message without a sender name is named differently by the two renderings. */
  lemma ReloadDropsFallbackName(m: Message)
    requires !TruthyText(m.senderName)
    ensures HistoryBubble(m).senderName.Some? && ReloadBubble(m).senderName.None?
  {
  }

  datatype DeleteOutcome = Deleted | DeleteRejected | DeleteThrew

  /** The alerts `deleteConversation` raises. */
  function DeleteAlerts(outcome: DeleteOutcome): seq<Effect> {
    match outcome
    case Deleted => []
    case DeleteRejected => [Alert("대화방 삭제에 실패했습니다.")]
    case DeleteThrew => [Alert("대화방 삭제 중 오류가 발생했습니다.")]
  }

  /**
   The delete button of a list row: nothing without confirmation; otherwise
   the delete is requested (when there is a token), the list refreshed, and
   the selection and pane cleared if and only if the deleted conversation
   was the selected one, whatever the delete's outcome.
   */
  function DeleteConversation(
    s: Session, id: ConversationId, confirmed: bool, env: Environment, outcome: DeleteOutcome): (r: Step)
    ensures !confirmed ==> r == Step(s, [])
    ensures confirmed ==> |r.effects| >= 1 && r.effects[|r.effects| - 1] == RefreshCurrent(s)
    ensures confirmed ==> (DeleteRequest(id) in r.effects <==> TruthyText(env.token))
    ensures confirmed && s.selected == Some(id) ==>
              r.session == s.(selected := None, pane := Cleared(s.pane))
    ensures !(confirmed && s.selected == Some(id)) ==> r.session == s
  {
    if !confirmed then Step(s, [])
    else
      var request := if TruthyText(env.token) then [DeleteRequest(id)] + DeleteAlerts(outcome) else [];
      var effects := request + [RefreshCurrent(s)];
      if IsOpen(s, Id(id)) then Step(s.(selected := None, pane := Cleared(s.pane)), effects)
      else Step(s, effects)
  }

  /**
   A channel tab click: the channel changes, the list is reloaded (`all`
   without a filter), and the selection, pane and customer panel are always
   cleared.
   */
  function SwitchChannel(s: Session, channel: string): (r: Step)
    ensures r.session.selected.None? && r.session.channel == channel
    ensures r.session.pane == Cleared(s.pane) && r.session.customerPanel == PanelHidden
    ensures r.session.center == s.center && r.session.draft == s.draft && r.session.socket == s.socket
    ensures r.effects == [RefreshList(if channel == "all" then None else Some(channel))]
  {
    Step(s.(channel := channel, selected := None, pane := Cleared(s.pane), customerPanel := PanelHidden),
         [RefreshList(if channel == "all" then None else Some(channel))])
  }

  /**
   The tab handler is registered twice (once when the page's DOM is ready and
   once more by the dashboard's initialisation), so one click runs it twice:
   the session ends as after one run, with the list requested twice.
   */
  lemma SwitchChannelTwice(s: Session, channel: string)
    ensures SwitchChannel(SwitchChannel(s, channel).session, channel).session == SwitchChannel(s, channel).session
    ensures ListUrl(SwitchChannel(s, channel).effects[0].channel) == ListUrl(Some(channel))
  {
  }

  /* ---------------- sending a reply ---------------- */

  /** What became of the reply request. */
  datatype ReplyOutcome = Accepted | Rejected(detail: Option<string>) | Threw(message: string)

  /** The guards of `sendChatMessage`, in order, before anything is sent. */
  predicate ReplyGuardsPass(s: Session, env: Environment) {
    Trim(s.draft) != "" && TruthyNumber(s.selected) && TruthyText(env.token)
  }

  const SendFailurePrefix := "메시지 전송 실패: "

  /** The alert of a failed reply: the prefix, then the server's detail or the thrown message. */
  function FailureAlert(outcome: ReplyOutcome): (e: Effect)
    requires !outcome.Accepted?
    ensures e.Alert? && |e.text| >= |SendFailurePrefix| && e.text[..|SendFailurePrefix|] == SendFailurePrefix
    ensures outcome.Rejected? && outcome.detail.None? ==> e.text == SendFailurePrefix + "메시지 전송 실패"
    ensures outcome.Threw? ==> e.text[|SendFailurePrefix|..] == outcome.message
  {
    match outcome
    case Rejected(detail) => Alert(SendFailurePrefix + OrElse(detail, "메시지 전송 실패"))
    case Threw(message) => Alert(SendFailurePrefix + message)
  }

  /**
   `sendChatMessage` up to its `await`: an empty trimmed draft does nothing;
   with no selection or no token the agent is alerted and nothing else
   happens. Otherwise the button is disabled and the trimmed draft is posted
   to the selected conversation; nothing is rendered yet.
   */
  function StartReply(s: Session, env: Environment): (r: Step)
    ensures Trim(s.draft) == "" ==> r == Step(s, [])
    ensures Trim(s.draft) != "" && !TruthyNumber(s.selected) ==> r == Step(s, [Alert("먼저 대화방을 선택해주세요.")])
    ensures Trim(s.draft) != "" && TruthyNumber(s.selected) && !TruthyText(env.token) ==>
              r == Step(s, [Alert("로그인이 필요합니다.")])
    ensures ReplyGuardsPass(s, env) ==>
              && r.session == s.(sendDisabled := true)
              && r.effects == [PostReply(s.selected.value, Trim(s.draft))]
  {
    var text := Trim(s.draft);
    if text == "" then Step(s, [])
    else if !TruthyNumber(s.selected) then Step(s, [Alert("먼저 대화방을 선택해주세요.")])
    else if !TruthyText(env.token) then Step(s, [Alert("로그인이 필요합니다.")])
    else Step(s.(sendDisabled := true), [PostReply(s.selected.value, text)])
  }

  /**
   The rest of `sendChatMessage`, run when the request settles, on the session
   as it is by then: an accepted reply is appended to whatever pane is shown,
   the draft is cleared and the list refreshed; a failure is alerted and keeps
   pane and draft. The button is enabled either way.
   */
  function FinishReply(s: Session, text: string, outcome: ReplyOutcome): (r: Step)
    ensures |r.effects| == 1 && !r.session.sendDisabled
    ensures r.session.selected == s.selected && r.session.center == s.center && r.session.channel == s.channel
    ensures outcome.Accepted? ==>
              && r.session == s.(pane := Append(s.pane, MakeBubble(text, "agent", None, None)), draft := "",
                                 sendDisabled := false)
              && r.effects == [RefreshCurrent(s)]
    ensures !outcome.Accepted? ==> r == Step(s.(sendDisabled := false), [FailureAlert(outcome)])
  {
    if outcome.Accepted? then
      Step(s.(pane := Append(s.pane, MakeBubble(text, "agent", None, None)), draft := "", sendDisabled := false),
           [RefreshCurrent(s)])
    else Step(s.(sendDisabled := false), [FailureAlert(outcome)])
  }

  /**
   The finishing step as evidently intended: the accepted reply is shown only
   when the conversation it was posted to is still the one on screen.
   */
  function FinishReplyFor(s: Session, id: ConversationId, text: string, outcome: ReplyOutcome): (r: Step)
    ensures r.effects == FinishReply(s, text, outcome).effects
    ensures r.session.selected == s.selected && !r.session.sendDisabled
    ensures s.selected == Some(id) ==> r == FinishReply(s, text, outcome)
    ensures s.selected != Some(id) ==> r.session.pane == s.pane
  {
    var done := FinishReply(s, text, outcome);
    if s.selected == Some(id) then done else Step(done.session.(pane := s.pane), done.effects)
  }

  /**
   As written, a reply accepted after the agent has opened another
   conversation is appended to that other conversation's pane: the pane of
   `other` ends with the reply posted to `first`.
   */
  lemma ReplyShownInOtherConversation(
    s: Session, env: Environment, other: ConversationId, history: seq<Message>, lookup: CustomerLookup)
    requires ReplyGuardsPass(s, env) && s.pane.Attached? && s.selected != Some(other)
    ensures var started := StartReply(s, env);
            var switched := SelectConversation(started.session, other, env, Ok(history), lookup);
            var done := FinishReply(switched, Trim(s.draft), Accepted);
            && started.effects == [PostReply(s.selected.value, Trim(s.draft))]
            && done.session.selected == Some(other) && s.selected.value != other
            && done.session.pane.Attached?
            && done.session.pane.bubbles
               == switched.pane.bubbles + [MakeBubble(Trim(s.draft), "agent", None, None)]
  {
  }

  /** The intended step never puts a reply into a conversation it was not posted to. */
  lemma FinishReplyForStaysInItsConversation(s: Session, id: ConversationId, text: string, outcome: ReplyOutcome)
    requires s.selected != Some(id)
    ensures FinishReplyFor(s, id, text, outcome).session.pane == s.pane
    ensures FinishReply(s, text, outcome).session.pane != s.pane <==> outcome.Accepted? && s.pane.Attached?
  {
    if outcome.Accepted? && s.pane.Attached? {
      assert |FinishReply(s, text, outcome).session.pane.bubbles| == |s.pane.bubbles| + 1;
    }
  }

  /**
   `sendChatMessage` with nothing happening while the request is in flight:
   the start step, then the finishing step on the session it left.
   */
  function SendChatMessage(s: Session, env: Environment, outcome: ReplyOutcome): (r: Step)
    ensures !ReplyGuardsPass(s, env) ==> r == StartReply(s, env)
    ensures ReplyGuardsPass(s, env) ==>
              && |r.effects| == 2 && r.effects[0] == PostReply(s.selected.value, Trim(s.draft))
              && !r.session.sendDisabled && r.session.selected == s.selected && r.session.center == s.center
  {
    var started := StartReply(s, env);
    if !ReplyGuardsPass(s, env) then started
    else Settle(started, s.selected.value, Trim(s.draft), outcome)
  }

  /** The start step's effects followed by the intended finishing step on the session it left. */
  function Settle(started: Step, id: ConversationId, text: string, outcome: ReplyOutcome): (r: Step)
    ensures |r.effects| == |started.effects| + 1 && r.effects[..|started.effects|] == started.effects
  {
    var done := FinishReplyFor(started.session, id, text, outcome);
    Step(done.session, started.effects + done.effects)
  }

  /**
   An uninterrupted send: only an accepted reply appends the agent bubble,
   clears the draft and refreshes the list; a failure is alerted and leaves
   everything but the button as it was.
   */
  lemma SendChatMessageSettles(s: Session, env: Environment, outcome: ReplyOutcome)
    requires ReplyGuardsPass(s, env)
    ensures var r := SendChatMessage(s, env, outcome);
            && (outcome.Accepted? ==>
                  && r.session.pane == Append(s.pane, MakeBubble(Trim(s.draft), "agent", None, None))
                  && r.session.draft == "" && r.effects[1] == RefreshCurrent(s))
            && (!outcome.Accepted? ==> r.session == s.(sendDisabled := false) && r.effects[1] == FailureAlert(outcome))
  {
    var started := StartReply(s, env);
    SettleAfterStart(s, started, s.selected.value, Trim(s.draft), outcome);
  }

  /** Settling right after a successful start step, stated without the draft's trimming. */
  lemma SettleAfterStart(s: Session, started: Step, id: ConversationId, text: string, outcome: ReplyOutcome)
    requires started == Step(s.(sendDisabled := true), [PostReply(id, text)]) && s.selected == Some(id)
    ensures var r := Settle(started, id, text, outcome);
            && (outcome.Accepted? ==>
                  && r.session.pane == Append(s.pane, MakeBubble(text, "agent", None, None))
                  && r.session.draft == "" && r.effects[1] == RefreshCurrent(s))
            && (!outcome.Accepted? ==> r.session == s.(sendDisabled := false) && r.effects[1] == FailureAlert(outcome))
  {
  }

  /**
   With no other event in between, the intended finishing step and the code
   as written agree.
   */
  lemma UninterruptedReplyAgrees(s: Session, env: Environment, outcome: ReplyOutcome)
    requires ReplyGuardsPass(s, env)
    ensures var started := StartReply(s, env);
            FinishReplyFor(started.session, s.selected.value, Trim(s.draft), outcome)
              == FinishReply(started.session, Trim(s.draft), outcome)
  {
  }

  /**
   The dashboard does not render a reply before the server accepts it: the
   pane grows, by exactly one bubble, if and only if the guards pass and the
   reply is accepted.
   */
  lemma SendIsNotOptimistic(s: Session, env: Environment, outcome: ReplyOutcome)
    requires s.pane.Attached?
    ensures Shown(StartReply(s, env).session.pane) == Shown(s.pane)
    ensures var r := SendChatMessage(s, env, outcome);
            && (Shown(r.session.pane) == Shown(s.pane) + 1 <==> ReplyGuardsPass(s, env) && outcome.Accepted?)
            && (Shown(r.session.pane) != Shown(s.pane) + 1 ==> r.session.pane == s.pane)
  {
  }

  /* ---------------- the notification centre ---------------- */

  /** The bell: toggles the panel, marking every record read when it opens. */
  function ClickBell(s: Session): (r: Session)
    ensures r.center == N.ToggleBell(s.center)
    ensures r == s.(center := r.center)
  {
    s.(center := N.ToggleBell(s.center))
  }

  /** A click anywhere outside the panel and the bell closes the panel; nothing is marked read. */
  function ClickOutside(s: Session): (r: Session)
    ensures !r.center.panelOpen && r.center.queue == s.center.queue
    ensures r == s.(center := r.center)
  {
    s.(center := s.center.(panelOpen := false))
  }

  /** "Clear all": empties the queue only on confirmation. */
  function ClearNotifications(s: Session, confirmed: bool): (r: Session)
    ensures confirmed ==> r.center.queue == []
    ensures confirmed ==> N.BadgeOf(r.center.queue) == N.Hidden && N.PanelOf(r.center.queue) == N.EmptyPlaceholder
    ensures !confirmed ==> r == s
    ensures r == s.(center := r.center) && r.center.panelOpen == s.center.panelOpen
  {
    s.(center := s.center.(queue := N.ClearAll(s.center.queue, confirmed)))
  }
}
