/**
 The customer chat widget (frontend/widget/chat-widget.js): a persistent
 customer id kept in local storage, a transcript of user, agent and system
 bubbles that only ever grows, a push socket that always reconnects, and a
 send flow that renders the message before posting it and adds a failure
 notice when the post throws.
 */
module Widget {

  import opened JsText

  /* ---------------- the customer id ---------------- */

  const CustomerIdKey := "dw_widget_customer_id"

  /** `localStorage`, as the key/value strings it holds. */
  type Storage = map<string, string>

  /** The id a first visit generates from a random base-36 `suffix`. */
  function GeneratedId(suffix: string): string {
    "w_" + suffix
  }

  /**
   The widget's start-up: a stored id that is truthy is kept and storage is
   untouched; otherwise (missing or empty) a fresh id is generated and stored.
   */
  function Bootstrap(storage: Storage, suffix: string): (r: (string, Storage))
    ensures Truthy(r.0)
    ensures CustomerIdKey in r.1 && r.1[CustomerIdKey] == r.0
    ensures CustomerIdKey in storage && Truthy(storage[CustomerIdKey]) ==> r == (storage[CustomerIdKey], storage)
    ensures !(CustomerIdKey in storage && Truthy(storage[CustomerIdKey])) ==>
              r.0 == GeneratedId(suffix) && r.1 == storage[CustomerIdKey := r.0]
    ensures forall k :: k in storage && k != CustomerIdKey ==> k in r.1 && r.1[k] == storage[k]
  {
    if CustomerIdKey in storage && Truthy(storage[CustomerIdKey]) then (storage[CustomerIdKey], storage)
    else
      var id := GeneratedId(suffix);
      (id, storage[CustomerIdKey := id])
  }

  /**
   The id survives page loads: a second start-up, whatever random suffix it
   draws, finds the stored id and keeps it.
   */
  lemma BootstrapStable(storage: Storage, first: string, second: string)
    ensures var (id, stored) := Bootstrap(storage, first);
            Bootstrap(stored, second) == (id, stored)
  {
  }

  /* ---------------- the transcript ---------------- */

  datatype Sender = User | Agent | System

  /** One bubble of `#chat-messages`. */
  datatype WBubble = WBubble(sender: Sender, text: string)

  const SendFailureNotice := "메시지 전송에 실패했습니다."

  /** The number of bubbles of one sender. */
  function Count(t: seq<WBubble>, k: Sender): nat {
    if |t| == 0 then 0 else (if t[0].sender == k then 1 else 0) + Count(t[1..], k)
  }

  /** The senders in transcript order: the independent reading of `Count`. */
  ghost function Senders(t: seq<WBubble>): seq<Sender> {
    seq(|t|, i requires 0 <= i < |t| => t[i].sender)
  }

  lemma {:induction false} CountIsMultiplicity(t: seq<WBubble>, k: Sender)
    ensures Count(t, k) == multiset(Senders(t))[k]
  {
    if |t| > 0 {
      CountIsMultiplicity(t[1..], k);
      assert Senders(t) == [t[0].sender] + Senders(t[1..]);
    }
  }

  lemma {:induction false} CountAppend(a: seq<WBubble>, b: seq<WBubble>, k: Sender)
    ensures Count(a + b, k) == Count(a, k) + Count(b, k)
  {
    if |a| > 0 {
      assert (a + b)[1..] == a[1..] + b;
      CountAppend(a[1..], b, k);
    } else {
      assert a + b == b;
    }
  }

  /** Socket, history and send state of one widget page. */
  datatype Widget = Widget(
    customerId: string,
    windowOpen: bool,
    transcript: seq<WBubble>,
    input: string,
    pending: nat)

  /** What a transition asks of the outside world. */
  datatype Effect =
    | OpenSocket(url: string)
    | ScheduleReconnect(delayMs: nat)
    | FetchHistory(url: string)
    | PostMessage(customerId: string, customerName: string, content: string)

  function SocketUrl(customerId: string): string {
    "ws://localhost:8000/ws/widget/" + customerId
  }

  function HistoryUrl(customerId: string): string {
    "http://localhost:8000/widget/conversation/" + customerId
  }

  /**
   Every failure notice follows a send of its own: in every prefix of the
   transcript there are no more system bubbles than user bubbles, and in the
   whole transcript there is room for one notice per send still in flight.
   */
  ghost predicate Valid(w: Widget) {
    && (forall n :: 0 <= n <= |w.transcript| ==> Count(w.transcript[..n], System) <= Count(w.transcript[..n], User))
    && Count(w.transcript, System) + w.pending <= Count(w.transcript, User)
  }

  /** `initWidget`: the window closed, an empty transcript, the socket and the history requested. */
  function InitWidget(customerId: string): (r: (Widget, seq<Effect>))
    ensures Valid(r.0) && !r.0.windowOpen && r.0.transcript == []
    ensures r.1 == [OpenSocket(SocketUrl(customerId)), FetchHistory(HistoryUrl(customerId))]
  {
    (Widget(customerId, false, [], "", 0), [OpenSocket(SocketUrl(customerId)), FetchHistory(HistoryUrl(customerId))])
  }

  /* ---------------- the window ---------------- */

  /** Both the chat button and the AI button open the window and hide the chat button. */
  function OpenChat(w: Widget): (r: Widget)
    ensures r.windowOpen && r.transcript == w.transcript && r.pending == w.pending && r.input == w.input
  {
    w.(windowOpen := true)
  }

  function CloseChat(w: Widget): (r: Widget)
    ensures !r.windowOpen && r.transcript == w.transcript && r.pending == w.pending && r.input == w.input
  {
    w.(windowOpen := false)
  }

  /** Repeated clicks change nothing, and closing after opening restores a closed widget. */
  lemma WindowToggles(w: Widget)
    ensures OpenChat(OpenChat(w)) == OpenChat(w)
    ensures CloseChat(CloseChat(w)) == CloseChat(w)
    ensures !w.windowOpen ==> CloseChat(OpenChat(w)) == w
    ensures w.windowOpen ==> OpenChat(CloseChat(w)) == w
  {
  }

  /* ---------------- the socket ---------------- */

  const WidgetReconnectDelayMs: nat := 5000

  /** A message carried by an `agent_reply` event. */
  datatype WMessage = WMessage(content: string)

  /** A frame: a JSON envelope, or text `JSON.parse` throws on. */
  datatype WFrame = WParsed(kind: string, message: Option<WMessage>) | WUnparseable

  /** Whether a frame adds an agent bubble; every other frame is ignored or throws before rendering. */
  predicate AddsAgentBubble(f: WFrame) {
    f.WParsed? && f.kind == "agent_reply" && f.message.Some?
  }

  /**
   The socket's `onmessage`: an `agent_reply` carrying a message adds one
   agent bubble with its content; anything else leaves the widget unchanged.
   */
  function OnMessage(w: Widget, f: WFrame): (r: Widget)
    requires Valid(w)
    ensures Valid(r)
    ensures r.customerId == w.customerId && r.pending == w.pending && r.input == w.input
    ensures AddsAgentBubble(f) ==> r.transcript == w.transcript + [WBubble(Agent, f.message.value.content)]
    ensures !AddsAgentBubble(f) ==> r == w
  {
    if AddsAgentBubble(f) then
      var added := [WBubble(Agent, f.message.value.content)];
      AppendKeepsValid(w, added);
      w.(transcript := w.transcript + added)
    else w
  }

  /** The socket's `onclose`: a reconnect in five seconds, clean close or not. */
  function OnClose(w: Widget): (r: (Widget, seq<Effect>))
    ensures r.0 == w && r.1 == [ScheduleReconnect(WidgetReconnectDelayMs)]
  {
    (w, [ScheduleReconnect(WidgetReconnectDelayMs)])
  }

  /** The reconnect timer: a new socket for the same customer. */
  function Reconnect(w: Widget): (r: seq<Effect>)
    ensures r == [OpenSocket(SocketUrl(w.customerId))]
  {
    [OpenSocket(SocketUrl(w.customerId))]
  }

  /**
   Any close, clean or not, is followed by a timer that reopens exactly the
   socket the widget opened at start-up, and the widget itself is untouched
   in between.
   */
  lemma CloseThenReconnect(customerId: string, w: Widget)
    requires w.customerId == customerId
    ensures var closed := OnClose(w);
            && closed.0 == w
            && closed.1 == [ScheduleReconnect(WidgetReconnectDelayMs)]
            && Reconnect(closed.0) == InitWidget(customerId).1[..1]
  {
  }

  /* ---------------- history ---------------- */

  /** A stored message as returned by the history endpoint. */
  datatype HistoryMessage = HistoryMessage(senderType: string, content: string)

  /** The history request: a failure (thrown or unparsable), or the body it returned. */
  datatype HistoryResult = HistoryFailed | History(found: bool, messages: Option<seq<HistoryMessage>>)

  /** Customer messages render as user bubbles, everything else as agent bubbles. */
  function ReplayOne(m: HistoryMessage): (b: WBubble)
    ensures b.text == m.content
    ensures b.sender == User <==> m.senderType == "customer"
    ensures b.sender != System
  {
    WBubble(if m.senderType == "customer" then User else Agent, m.content)
  }

  function Replay(ms: seq<HistoryMessage>): (r: seq<WBubble>)
    ensures |r| == |ms|
    ensures forall k :: 0 <= k < |ms| ==> r[k] == ReplayOne(ms[k])
  {
    seq(|ms|, k requires 0 <= k < |ms| => ReplayOne(ms[k]))
  }

  /** Replaying a history in two parts is replaying it whole. */
  lemma ReplayAppend(a: seq<HistoryMessage>, b: seq<HistoryMessage>)
    ensures Replay(a + b) == Replay(a) + Replay(b)
  {
  }

  /** A replayed history holds no failure notices. */
  lemma {:induction false} ReplayHasNoSystem(ms: seq<HistoryMessage>)
    ensures Count(Replay(ms), System) == 0
  {
    if |ms| > 0 {
      assert Replay(ms)[1..] == Replay(ms[1..]);
      ReplayHasNoSystem(ms[1..]);
    }
  }

  /** The bubbles a history result adds: only an existing conversation with a message list. */
  function HistoryBubbles(h: HistoryResult): (r: seq<WBubble>)
    ensures Count(r, System) == 0
    ensures h.History? && h.found && h.messages.Some? ==> r == Replay(h.messages.value)
    ensures !(h.History? && h.found && h.messages.Some?) ==> r == []
  {
    if h.History? && h.found && h.messages.Some? then
      ReplayHasNoSystem(h.messages.value);
      Replay(h.messages.value)
    else []
  }

  /**
   `loadPreviousMessages`: the stored messages are appended, in order, after
   whatever the transcript already shows; a failed request adds nothing.
   */
  function LoadPrevious(w: Widget, h: HistoryResult): (r: Widget)
    requires Valid(w)
    ensures Valid(r)
    ensures |r.transcript| >= |w.transcript| && r.transcript[..|w.transcript|] == w.transcript
    ensures r == w.(transcript := w.transcript + HistoryBubbles(h))
    ensures h.HistoryFailed? ==> r == w
  {
    var added := HistoryBubbles(h);
    AppendKeepsValid(w, added);
    w.(transcript := w.transcript + added)
  }

  /* ---------------- sending ---------------- */

  /** What became of the post: its JSON body was read, or the fetch or the parse threw. */
  datatype SendOutcome = Posted | SendThrew

  /**
   `handleSendMessage`: an input that trims to nothing is left as it is;
   otherwise the input is cleared, the trimmed text is shown as a user bubble
   at once and posted under the customer's id and the name `고객`.
   */
  function HandleSend(w: Widget): (r: (Widget, seq<Effect>))
    requires Valid(w)
    ensures Valid(r.0)
    ensures Trim(w.input) == "" ==> r == (w, [])
    ensures Trim(w.input) != "" ==>
              && r.0 == w.(input := "", transcript := w.transcript + [WBubble(User, Trim(w.input))], pending := w.pending + 1)
              && r.1 == [PostMessage(w.customerId, "고객", Trim(w.input))]
  {
    var text := Trim(w.input);
    if text == "" then (w, [])
    else
      var t := w.transcript + [WBubble(User, text)];
      CountAppend(w.transcript, [WBubble(User, text)], System);
      CountAppend(w.transcript, [WBubble(User, text)], User);
      AppendOneKeepsValid(w, WBubble(User, text), w.pending + 1);
      (w.(input := "", transcript := t, pending := w.pending + 1), [PostMessage(w.customerId, "고객", text)])
  }

  /**
   The end of one post: a thrown fetch or unparsable reply adds the failure
   notice; a readable reply adds nothing.
   */
  function SendFinished(w: Widget, outcome: SendOutcome): (r: Widget)
    requires Valid(w) && w.pending > 0
    ensures Valid(r)
    ensures r.pending == w.pending - 1 && r.input == w.input
    ensures outcome.Posted? ==> r.transcript == w.transcript
    ensures outcome.SendThrew? ==> r.transcript == w.transcript + [WBubble(System, SendFailureNotice)]
  {
    match outcome
    case Posted => w.(pending := w.pending - 1)
    case SendThrew =>
      var added := [WBubble(System, SendFailureNotice)];
      CountAppend(w.transcript, added, System);
      CountAppend(w.transcript, added, User);
      AppendOneKeepsValid(w, added[0], w.pending - 1);
      w.(transcript := w.transcript + added, pending := w.pending - 1)
  }

  /** Sending to completion in one go: the user bubble, then the notice only on failure. */
  lemma SendRoundTrip(w: Widget, outcome: SendOutcome)
    requires Valid(w) && Trim(w.input) != ""
    ensures var sent := HandleSend(w).0;
            var done := SendFinished(sent, outcome);
            && done.pending == w.pending && done.input == ""
            && done.transcript == w.transcript + [WBubble(User, Trim(w.input))]
                 + (if outcome.SendThrew? then [WBubble(System, SendFailureNotice)] else [])
  {
  }

  /* ---------------- preserving the notice invariant ---------------- */

  /** One more bubble keeps the widget valid when the whole transcript still has room for the sends in flight. */
  lemma AppendOneKeepsValid(w: Widget, b: WBubble, pending: nat)
    requires Valid(w)
    requires Count(w.transcript + [b], System) + pending <= Count(w.transcript + [b], User)
    ensures Valid(w.(transcript := w.transcript + [b], pending := pending))
  {
    var t := w.transcript;
    var t2 := t + [b];
    forall n | 0 <= n <= |t2|
      ensures Count(t2[..n], System) <= Count(t2[..n], User)
    {
      if n <= |t| {
        assert t2[..n] == t[..n];
      } else {
        assert t2[..n] == t2;
      }
    }
  }

  /** Appending bubbles that hold no failure notice keeps the widget valid. */
  lemma AppendKeepsValid(w: Widget, u: seq<WBubble>)
    requires Valid(w) && Count(u, System) == 0
    ensures Valid(w.(transcript := w.transcript + u))
  {
    var t := w.transcript;
    var t2 := t + u;
    CountAppend(t, u, System);
    CountAppend(t, u, User);
    forall n | 0 <= n <= |t2|
      ensures Count(t2[..n], System) <= Count(t2[..n], User)
    {
      if n <= |t| {
        assert t2[..n] == t[..n];
      } else {
        assert t2[..n] == t + u[..n - |t|];
        assert u == u[..n - |t|] + u[n - |t|..];
        CountAppend(u[..n - |t|], u[n - |t|..], System);
        CountAppend(t, u[..n - |t|], System);
        CountAppend(t, u[..n - |t|], User);
        assert t[..|t|] == t;
      }
    }
  }
}
