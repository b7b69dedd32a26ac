# Dreamwish front end: session and transcript state machines in Dafny

This project models the three client-side state machines of the Dreamwish
customer-support front end:

- **The agent dashboard** (`frontend/dashboard/app.js`). It tracks the
  selected channel tab, the selected conversation, the message pane, the
  notification centre (queue, unread badge, bell panel), the customer panel,
  the reply draft and the push socket. Push frames are dispatched by their
  `type`. The model covers the echo suppression for the agent's own replies,
  the notification queue for messages in other conversations, and reconnects
  after unclean closes only. A reply is rendered only after the server
  accepts it.
- **The customer widget** (`frontend/widget/chat-widget.js`). It keeps a
  customer id that persists in local storage and an append-only transcript of
  user, agent and system bubbles. Its socket reconnects after every close.
  A message is rendered before it is posted, and a failure notice follows
  when the post throws.
- **The dashboard's AI panel** (`dashboard/ai-chat.js`). The agent's question
  appears at once, followed by a typing indicator. The indicator is hidden
  when the request settles and the bot's answer or an apology is appended.
  The welcome block disappears with the first message.

Each handler is a pure function from a state, the handler's inputs and
whatever the outside world answered to a new state, plus the effects it asks
for. The outside world covers the stored token and agent id, the HTTP
outcome, the `confirm` answer, the `Notification` capability and permission,
and the clock. The effects are list refreshes, requests, alerts, desktop
notifications, socket opens and closes, and reconnect timers.

The JavaScript built-ins the handlers rely on are modelled in `JsText` and
`UriComponent`, each with a partner definition:

- truthiness and `||` defaults;
- `String.prototype.trim` with the ECMAScript white-space set;
- `split` on one character;
- rendering integers in template literals;
- `parseInt` with sign, `0x` prefix and the longest digit run;
- `encodeURIComponent` with UTF-8 percent escapes.

Modules: `JsText`, `UriComponent`, `Notifications`, `DashboardView`,
`DashboardSession`, `Widget`, `AiChat`.

## Model

| member | source | states |
|---|---|---|
| JsText.OrElse | frontend/dashboard/app.js:218 | `a \|\| fallback` on text: the value when it is a non-empty string, the fallback otherwise |
| JsText.Nonblank | frontend/dashboard/app.js:219 | `x \|\| null`: a missing or empty string becomes absent, anything else is kept |
| JsText.Trim | frontend/dashboard/app.js:333 | the result has no white space at either end and is never longer than the input |
| JsText.TrimIsSlice | frontend/dashboard/app.js:333 | the result is a contiguous slice of the input, and everything cut away on either side is white space |
| JsText.TrimIdempotent | frontend/dashboard/app.js:706 | trimming a trimmed string changes nothing |
| JsText.TrimEmptyIffBlank | frontend/dashboard/app.js:333-334 | the trimmed input is empty exactly when the input is all white space, which is when a send is a no-op |
| JsText.Split | frontend/dashboard/app.js:706 | `split(",")` gives at least one piece and no piece contains the separator |
| JsText.JoinSplit | frontend/dashboard/app.js:706 | joining the pieces with the separator gives back the input |
| JsText.SplitAround | frontend/dashboard/app.js:706 | splitting `a + sep + b` gives the pieces of `a` followed by the pieces of `b` |
| JsText.NatToStringValue | frontend/dashboard/app.js:485 | the decimal rendering of a number reads back as that number |
| JsText.ParseInt | frontend/dashboard/app.js:251 | `parseInt` is NaN exactly when no digits follow the optional white space, sign and hex prefix |
| JsText.ParseIntOfIntToString | frontend/dashboard/app.js:251 | parsing the rendering of any integer gives that integer back |
| JsText.IntToStringInjective | frontend/dashboard/app.js:1081 | distinct ids render to distinct strings, so a `data-id` lookup finds only its own row |
| UriComponent.EncodeComponent | frontend/dashboard/app.js:427-429 | every character of the encoded channel is unreserved or `%`, and the result is at least as long as the input |
| UriComponent.DecodeEncode | frontend/dashboard/app.js:428 | percent-decoding the encoding gives exactly the UTF-8 bytes of the channel |
| UriComponent.EncodeUnreserved | frontend/dashboard/app.js:428 | a channel made only of unreserved characters is sent as it is |
| UriComponent.EncodedHasNoDelimiters | frontend/dashboard/app.js:428 | the encoded channel contains no `&`, `#` or `=`, so it cannot end the query value |
| Notifications.UnreadCountCountsUnread | frontend/dashboard/app.js:1033 | the unread count is the multiplicity of `false` among the read flags |
| Notifications.UnreadZeroIffAllRead | frontend/dashboard/app.js:1033-1042 | the count is zero exactly when every record is read |
| Notifications.UnreadCountBounded | frontend/dashboard/app.js:1033 | the count never exceeds the queue length |
| Notifications.ShowNotification | frontend/dashboard/app.js:285-328 | without the API nothing changes; otherwise one unread record is prepended, the old queue follows unchanged, and the unread count grows by one; a desktop notification is raised exactly when permission is granted |
| Notifications.DesktopTag | frontend/dashboard/app.js:307 | the tag is `conv-<id>` for a truthy id and `general` otherwise |
| Notifications.MarkAllRead | frontend/dashboard/app.js:1093-1096 | same length, each record differs from the original only in its read flag, and nothing is left unread |
| Notifications.ClearAll | frontend/dashboard/app.js:1099-1104 | the queue empties only on confirmation and is untouched otherwise |
| Notifications.ClearAllShowsNothing | frontend/dashboard/app.js:1099-1104 | after a confirmed clear the badge is hidden and the panel shows the placeholder; a declined one leaves both as they were |
| Notifications.BadgeOf | frontend/dashboard/app.js:1036-1043 | the badge is hidden exactly when every record is read, and otherwise shows the number of unread records |
| Notifications.PanelOf | frontend/dashboard/app.js:1046-1073 | the placeholder appears exactly for an empty queue; otherwise there is one row per record, in queue order, with the unread marker |
| Notifications.ToggleBell | frontend/dashboard/app.js:1138-1145 | the panel flips; opening it marks every record read and keeps the queue's length and contents |
| Notifications.ClickRow | frontend/dashboard/app.js:1076-1088 | a row without a link does nothing; a linked row closes the panel and selects a listed conversation rendering to the link, or nothing when none is listed |
| Notifications.FirstLinked | frontend/dashboard/app.js:1081-1084 | the found id is listed and renders to the link; when none is found, no listed id renders to it |
| Notifications.ClickDesktop | frontend/dashboard/app.js:313-324 | a click selects the notification's own conversation exactly when its id is truthy and listed |
| Notifications.OpeningHidesBadge | frontend/dashboard/app.js:1140-1144 | the badge is hidden right after the bell opens the panel |
| DashboardView.ChannelIcon | frontend/dashboard/app.js:528-536 | the table's icon for known channels, else the speech balloon; never empty |
| DashboardView.ChannelLabel | frontend/dashboard/app.js:539-547 | the table's label for known channels, else the channel type itself |
| DashboardView.PlatformLabel | frontend/dashboard/app.js:667-674 | the platform table's label, else the platform itself |
| DashboardView.PlatformExtendsChannel | frontend/dashboard/app.js:539-547 | for every type except `email`, the customer panel and the list show the same label |
| DashboardView.EmailLabelsDiffer | frontend/dashboard/app.js:667-674 | `email` is the one type the two tables label differently |
| DashboardView.ConversationTitle | frontend/dashboard/app.js:485 | the channel icon, then the profile name, or `손님 #<id>` when there is none |
| DashboardView.UnnamedTitlesDistinct | frontend/dashboard/app.js:485 | two unnamed conversations of one channel never share a title |
| DashboardView.ConversationSubtitle | frontend/dashboard/app.js:489 | the bracketed channel label, then the last message or `메시지 없음` |
| DashboardView.HistorySenderName | frontend/dashboard/app.js:588 | the sender's own name, else `고객`, `상담원` or `AI` by sender type; never empty |
| DashboardView.CustomerDisplayName | frontend/dashboard/app.js:661 | the name, else the external id, else `고객`; never empty |
| DashboardView.AvatarFor | frontend/dashboard/app.js:78-100 | a photo exactly when there is an image; otherwise an initial exactly when there is a name; otherwise the caption for the sender type |
| DashboardView.CaptionFor | frontend/dashboard/app.js:89-98 | `고객`, `상담원` or `🤖` for the three known sender types, `?` for anything else |
| DashboardView.MakeBubble | frontend/dashboard/app.js:67-134 | the bubble keeps text and sender type, shows the name line only for a truthy name, and carries the avatar the precedence picks |
| DashboardView.NamedBubbleAvatar | frontend/dashboard/app.js:90-91 | a named bubble without a photo shows the name's first character |
| DashboardView.TagsOf | frontend/dashboard/app.js:706 | every tag is non-empty, trimmed and free of commas |
| DashboardView.ParseTags | frontend/dashboard/app.js:705-713 | a missing or empty field gives no tags |
| DashboardView.TagsAround | frontend/dashboard/app.js:706 | the tags of `a,b` are the tags of `a` followed by those of `b` |
| DashboardView.TagsAreTrimmedPieces | frontend/dashboard/app.js:706 | a string is a tag exactly when it is non-empty and is the trimmed form of some comma-separated piece |
| DashboardView.Preview | frontend/dashboard/app.js:227-229 | a text of up to 50 characters is kept; a longer one becomes its first 50 characters followed by `...` |
| DashboardView.PreviewIdempotent | frontend/dashboard/app.js:227-229 | previewing a preview changes nothing |
| DashboardView.NotificationBody | frontend/dashboard/app.js:226-229 | the previewed content, or the default text when the message or its content is missing |
| DashboardView.NotificationTitle | frontend/dashboard/app.js:225-231 | the customer's name, or `고객`, followed by `님의 새 메시지` |
| DashboardView.ListUrl | frontend/dashboard/app.js:426-429 | no query for a missing, empty or `all` channel; otherwise the list path followed by `?channel=` and the encoded channel |
| DashboardView.ListUrlCarriesChannel | frontend/dashboard/app.js:427-429 | the query value decodes to the channel's bytes and contains no `&`, `#` or `=` |
| DashboardView.AllMeansNoFilter | frontend/dashboard/app.js:427 | the `all` tab and no filter fetch the same URL |
| DashboardView.LoadConversations | frontend/dashboard/app.js:421-525 | no token, a failed response or a missing list changes nothing; an empty result shows the placeholder; otherwise one row per conversation, in order, with its id and title |
| DashboardView.CustomerViewOf | frontend/dashboard/app.js:642-722 | each panel field follows its fallback chain; the tags are the parsed tag field; the memo records its customer |
| DashboardView.CustomerViewTags | frontend/dashboard/app.js:701-709 | the panel's tags are exactly the non-empty trimmed comma-separated pieces of the tag field, and none for a missing or empty field |
| DashboardView.BlankCustomerView | frontend/dashboard/app.js:641-722 | a customer with every optional field missing shows `고객`, dashes, no platform, no tags and an empty memo |
| DashboardView.NamedCustomerView | frontend/dashboard/app.js:658-680 | a name wins over the external id, which is still shown on its own row |
| DashboardSession.HandleNewCustomerMessage | frontend/dashboard/app.js:204-236 | the list is always refreshed first; a message whose id strictly equals the selection (a `null` id while nothing is selected included) is appended as a customer bubble and raises no notification; any other event prepends one unread notification (when supported) with the previewed content, and leaves the pane alone |
| DashboardSession.CustomerBubble | frontend/dashboard/app.js:214-220 | the customer bubble carries the content and the customer name, defaulted to `고객` |
| DashboardSession.HandleAgentReply | frontend/dashboard/app.js:239-256 | the list is refreshed; exactly an agent message whose id strictly equals the selection (a `null` id while nothing is selected included) and that is not the agent's own echo is appended, and otherwise the session is unchanged |
| DashboardSession.Dispatch | frontend/dashboard/app.js:157-183 | a customer message goes to the customer-message handler and an agent reply to the agent-reply handler; an unparsable frame or unknown type does nothing; an update refreshes the list and reloads the messages of the selection exactly when its id strictly equals the selection, `null` included; no frame moves the selection or the channel |
| DashboardSession.OwnEchoSuppressed | frontend/dashboard/app.js:249-253 | a reply whose sender id renders to the stored agent id never changes the session |
| DashboardSession.OtherAgentReplyShown | frontend/dashboard/app.js:246-253 | any agent reply in the open conversation that is not the agent's own echo adds exactly one agent bubble |
| DashboardSession.DifferentAgentReplyShown | frontend/dashboard/app.js:249-253 | a reply whose sender id differs from `parseInt` of the stored agent id is shown |
| DashboardSession.NullIdMatchesNoSelection | frontend/dashboard/app.js:211 | with nothing selected a `null`-id customer message lands in the pane without a notification, and a `null`-id update reloads the messages of `null` |
| DashboardSession.MissingIdAlwaysNotifies | frontend/dashboard/app.js:211 | a customer message without a conversation id never matches the selection and always becomes an unlinked notification |
| DashboardSession.DispatchAllNotifies | frontend/dashboard/app.js:157-236 | over any run of frames the selection and channel stay put; with the `Notification` API present, the queue grows by exactly the number of customer messages whose id does not strictly equal the selection, and the old records stay, in order, at its end |
| DashboardSession.DispatchAllWithoutNotifications | frontend/dashboard/app.js:286 | without the `Notification` API no run of frames changes the notification centre |
| DashboardSession.Connect | frontend/dashboard/app.js:137-150 | a missing agent id does nothing; otherwise the last effect opens the agent's socket, and an existing socket is closed first exactly when it is open |
| DashboardSession.SocketOpened | frontend/dashboard/app.js:152-155 | the socket becomes open for the agent it was made for, and nothing else changes |
| DashboardSession.ReconnectClosesOpenSocket | frontend/dashboard/app.js:137-155 | after a connection opens, the next connect closes it before opening the new socket |
| DashboardSession.SocketClosed | frontend/dashboard/app.js:185-194 | a reconnect for the same agent after 3 s is scheduled exactly when the close was not clean |
| DashboardSession.ReconnectReopens | frontend/dashboard/app.js:189-192 | the scheduled reconnect opens the same agent's socket again |
| DashboardSession.SelectConversation | frontend/dashboard/app.js:550-639 | the selection moves at once; only with a token, a good response and a pane, the pane becomes the history in order and the customer panel follows the lookup; the draft is kept |
| DashboardSession.HistoryBubble | frontend/dashboard/app.js:583-590 | a history bubble is named by the sender-name fallback |
| DashboardSession.ReloadMessagesOf | frontend/dashboard/app.js:389-416 | only with a token, a good response and a pane, the pane becomes the messages in order, without fallback names or photos; otherwise the session is unchanged |
| DashboardSession.ReloadDropsFallbackName | frontend/dashboard/app.js:583-590 | an unnamed message gets a name when a conversation is opened but none when it is reloaded after an update |
| DashboardSession.DeleteConversation | frontend/dashboard/app.js:499-508 | nothing without confirmation; otherwise the delete is requested only with a token and the list is refreshed last; the selection and pane clear exactly when the deleted conversation was selected, whatever the outcome |
| DashboardSession.SwitchChannel | frontend/dashboard/app.js:977-994 | the channel changes, the selection, pane and customer panel are cleared, and the list is reloaded with no filter for `all` |
| DashboardSession.SwitchChannelTwice | frontend/dashboard/app.js:973-996 | the handler is registered twice, and running it twice ends as running it once; the `null` and `all` forms fetch the same list |
| DashboardSession.StartReply | frontend/dashboard/app.js:332-362 | a blank draft does nothing; no selection, then no token, is alerted with nothing sent; otherwise the button is disabled and the trimmed draft is posted to the selected conversation, with nothing rendered yet |
| DashboardSession.FailureAlert | frontend/dashboard/app.js:364-381 | a failure alert starts with the failure prefix, then the server's detail (or the default text) or the thrown message |
| DashboardSession.FinishReply | frontend/dashboard/app.js:364-385 | on the session as it is when the request settles: only an accepted reply appends the agent bubble to the shown pane, clears the draft and refreshes the list; a failure is alerted and changes nothing but the button; the button ends enabled |
| DashboardSession.ReplyShownInOtherConversation | frontend/dashboard/app.js:359-373 | a reply accepted after another conversation was opened is appended to that other conversation's pane |
| DashboardSession.FinishReplyFor | frontend/dashboard/app.js:372-374 | the intended step: the same effects, and the reply is shown only while its own conversation is selected |
| DashboardSession.FinishReplyForStaysInItsConversation | frontend/dashboard/app.js:372-374 | when another conversation is on screen the intended step keeps its pane, where the code as written changes it exactly for an accepted reply |
| DashboardSession.UninterruptedReplyAgrees | frontend/dashboard/app.js:332-385 | with nothing in between the start and the finish, the intended step and the code as written agree |
| DashboardSession.SendChatMessage | frontend/dashboard/app.js:332-385 | an uninterrupted send: failed guards act as the start step; otherwise the post goes to the selected conversation and the button ends enabled |
| DashboardSession.SendChatMessageSettles | frontend/dashboard/app.js:364-385 | an uninterrupted send appends the agent bubble, clears the draft and refreshes the list exactly when accepted; a failure is alerted and keeps pane and draft |
| DashboardSession.SendIsNotOptimistic | frontend/dashboard/app.js:348-374 | starting a send renders nothing; the pane grows by one bubble exactly when the guards pass and the reply is accepted, and is untouched otherwise |
| DashboardSession.ClickBell | frontend/dashboard/app.js:1138-1145 | the bell toggles the centre and the rest of the session is unchanged |
| DashboardSession.ClickOutside | frontend/dashboard/app.js:1155-1161 | an outside click closes the panel and marks nothing read |
| DashboardSession.ClearNotifications | frontend/dashboard/app.js:1099-1104 | "clear all" empties the queue, hides the badge and shows the placeholder only when confirmed, and touches nothing else |
| Widget.Bootstrap | frontend/widget/chat-widget.js:6-10 | a stored truthy id is kept with storage untouched; otherwise `w_<suffix>` is generated and stored; other keys are never touched |
| Widget.BootstrapStable | frontend/widget/chat-widget.js:6-10 | a second start-up, whatever it draws, keeps the first start-up's id |
| Widget.CountIsMultiplicity | frontend/widget/chat-widget.js:159-193 | the bubble count of a sender is its multiplicity among the transcript's senders |
| Widget.InitWidget | frontend/widget/chat-widget.js:16-63 | the widget starts closed with an empty transcript, then opens the socket and requests the history |
| Widget.OpenChat | frontend/widget/chat-widget.js:71-74 | the window opens and nothing else changes |
| Widget.CloseChat | frontend/widget/chat-widget.js:77-80 | the window closes and nothing else changes |
| Widget.WindowToggles | frontend/widget/chat-widget.js:71-80 | open and close are idempotent, and each undoes the other |
| Widget.OnMessage | frontend/widget/chat-widget.js:90-95 | exactly an `agent_reply` carrying a message appends one agent bubble; the widget stays valid |
| Widget.OnClose | frontend/widget/chat-widget.js:97-101 | every close schedules a reconnect in 5 s |
| Widget.Reconnect | frontend/widget/chat-widget.js:83-101 | the reconnect opens the same customer's socket |
| Widget.CloseThenReconnect | frontend/widget/chat-widget.js:83-101 | every close leaves the widget untouched and schedules a timer in 5 s that reopens exactly the socket opened at start-up |
| Widget.ReplayOne | frontend/widget/chat-widget.js:111-117 | a history message becomes a user bubble exactly when it is the customer's, and is never a system bubble |
| Widget.Replay | frontend/widget/chat-widget.js:111-117 | one bubble per history message, in order |
| Widget.ReplayAppend | frontend/widget/chat-widget.js:111-117 | replaying a history in two parts equals replaying it whole |
| Widget.HistoryBubbles | frontend/widget/chat-widget.js:110-118 | only an existing conversation with a message list adds bubbles, and never a failure notice |
| Widget.LoadPrevious | frontend/widget/chat-widget.js:105-122 | history is appended after what is already shown and a failure adds nothing; the widget stays valid |
| Widget.HandleSend | frontend/widget/chat-widget.js:125-138 | a blank input is left as it is; otherwise the input clears, the user bubble appears before the post, and the post carries the customer id and the name `고객` |
| Widget.SendFinished | frontend/widget/chat-widget.js:140-156 | a thrown post or unreadable reply adds the failure notice; a readable reply adds nothing |
| Widget.SendRoundTrip | frontend/widget/chat-widget.js:125-157 | a whole send adds the user bubble, then the notice only on failure |
| Widget.AppendKeepsValid | frontend/widget/chat-widget.js:155 | appending bubbles without notices keeps every notice after a send of its own |
| AiChat.AppendAIMessage | dashboard/ai-chat.js:14-60 | nothing without the container; otherwise the welcome goes and one message is added after the old items, with the robot avatar exactly for `bot` and a time exactly for a truthy timestamp |
| AiChat.ShowTyping | dashboard/ai-chat.js:63-78 | one more typing indicator; messages unchanged |
| AiChat.RemoveFirstTyping | dashboard/ai-chat.js:82-85 | removes one indicator when there is one and otherwise nothing; messages unchanged |
| AiChat.HideTyping | dashboard/ai-chat.js:81-86 | the indicator count drops by one, not below zero; messages unchanged |
| AiChat.Initial | dashboard/ai-chat.js:153-175 | the panel starts valid, idle and enabled |
| AiChat.SendBegin | dashboard/ai-chat.js:89-120 | a blank input does nothing; no token alerts and redirects to the login page; otherwise the question is shown, the input cleared and the button disabled; with a container, an indicator is shown and the question posted; the panel stays valid |
| AiChat.AnswerText | dashboard/ai-chat.js:128-140 | the response when it is non-empty, else the no-answer text, and the apology for every failure |
| AiChat.SendFinish | dashboard/ai-chat.js:121-143 | one bot message with the answer text is appended after the existing messages, the button is enabled, and the indicators drop by the number of hides |
| AiChat.SendToCompletion | dashboard/ai-chat.js:89-144 | one send with nothing else in flight adds exactly the question and the answer and leaves no indicator |
| AiChat.BeginAddsQuestion | dashboard/ai-chat.js:89-107 | starting a send from rest shows the question after the old messages, clears the input and leaves exactly one indicator for the one request in flight |
| AiChat.FinishAnswersQuestion | dashboard/ai-chat.js:121-143 | settling the only request removes its indicator and puts the answer right after the question |
| AiChat.NoTypingAtRest | dashboard/ai-chat.js:121-135 | with no request in flight there is no typing indicator |
| AiChat.DoubleHideLosesIndicator | dashboard/ai-chat.js:121-135 | two sends in flight and an HTTP error on one leave no indicator for the other |
| AiChat.SendBeginKeepsOneIndicator | dashboard/ai-chat.js:104-107 | starting a send keeps one indicator per request in flight |
| AiChat.SendFinishOnce | dashboard/ai-chat.js:121-143 | hiding once per request keeps one indicator per request in flight and gives the same messages |
| AiChat.SingleSendAgrees | dashboard/ai-chat.js:121-143 | with one request in flight, the code as written and the corrected step agree |

## Behaviour worth noting

- **Dashboard send:** nothing is rendered until the server accepts the reply
  (`SendIsNotOptimistic`), and a failure is an `alert` rather than a bubble
  in the pane. The send button is disabled while the request is in flight,
  but the Enter key calls the same handler, and the finishing step acts on
  whatever conversation is on screen by then (see Findings).
- **Null conversation ids:** nothing selected is `null`, so a push frame
  whose `conversation_id` is `null` is treated as the open conversation
  (`NullIdMatchesNoSelection`). A frame without the field matches nothing.
- **Selecting a conversation:** it keeps the reply draft and leaves the
  customer panel as it is until the customer lookup settles.
- **Widget reconnect:** the widget reconnects after every close, clean or not
  (`Widget.CloseThenReconnect`). It does not close an earlier socket before
  opening a new one.
- **Widget frames:** the widget's frame handler has no `try`/`catch`. A frame
  that does not parse, or an `agent_reply` without a message, throws inside
  the handler; the model shows this as a frame that changes nothing.

## Left out

- **DOM and styling:** element creation, CSS classes, scrolling and
  auto-resize are not modelled. The panes are sequences of bubble values.
- **Network and timers:** `fetch`, `WebSocket` and `setTimeout` are effects
  or inputs, not executions. The order in which concurrent responses arrive
  is chosen by the caller of the transition functions.
- **`DashboardSession.SelectConversation`:** the message fetch and the
  customer lookup settle in the same step that moves the selection, so a
  late response for a conversation that is no longer selected cannot be
  expressed. The same holds for `ReloadMessagesOf` and `DeleteConversation`.
  Only the reply send is split into a start and a finish step.
- **Clock and locale:** `Date.now`, `toISOString` and the `ko-KR` time
  formatting are left out. Times are opaque strings, and notification ids are
  given.
- **Random ids:** `Math.random` is the `suffix` parameter of `Widget.Bootstrap`.
- **`toUpperCase`:** the upper-casing of an avatar initial is not modelled.
  `DashboardView.AvatarFor` keeps the raw first character.
- **String lengths:** lengths are counted in Unicode scalar values, not UTF-16
  code units, so the 50-character preview cut may differ for text outside the
  Basic Multilingual Plane. Likewise the avatar initial is the first whole
  scalar value of the name, where `charAt(0)` gives a lone surrogate for a
  name that starts outside that plane.
- **Table lookups:** the icon and label tables are lookups on own keys only.
  Inherited object keys such as `constructor` are not modelled.
- **Number precision:** `parseInt` is exact on unbounded integers. The loss of
  precision of large numbers in JavaScript is not modelled.
- **Missing message content:** absent content is modelled as the empty
  string, and messages of the history endpoint are assumed to be objects.
- **Button state:** a missing send button (`if (sendBtn)`) is not modelled;
  the button is always present.
- **Customer panel:** a missing panel element is not modelled; the panel is
  always present.
- **Operations outside the modelled core:** `saveCustomerMemo`,
  `connectConversation`, `endConversation`, `loadUsersList`, `fetchMe`,
  `initDashboard`, `requestNotificationPermission`, `logoutAndGoLogin` and
  the widget's `openAIInfo`.
- **Notification permission:** it is an input; the permission request and its
  test notification are left out.
- **`DashboardSession.SelectConversation`:** the clicked row's `active` class
  is not modelled (presentation).
- **`DashboardSession.SelectConversation`:** the two customer lookups are one
  input, `CustomerLookup`.
- **`DashboardSession.SocketClosed`:** the delay is recorded, not waited.
  `ReconnectReopens` shows what the timer does when it fires.
- **`Notifications.BadgeOf`:** an absent notification list element is not
  modelled. The code then skips the badge update.

## Findings

| source | as written | input that shows it | evidently intended | confidence | as-written member | corrected member |
|---|---|---|---|---|---|---|
| dashboard/ai-chat.js:121-135 | after an HTTP error (or an unreadable body) the typing indicator is hidden in the `try` and again in the `catch`, removing two indicators | two questions in flight (the second sent with Enter, which the disabled button does not block) and an HTTP error on the first: the second request is pending with no indicator | each settled request hides its own indicator exactly once | medium; not executed | AiChat.SendFinish, AiChat.DoubleHideLosesIndicator | AiChat.SendFinishOnce, AiChat.SendBeginKeepsOneIndicator, AiChat.SingleSendAgrees |
| frontend/dashboard/app.js:372-374 | after the `await`, an accepted reply is appended to whatever pane is on screen, and the draft cleared, whichever conversation is selected by then | send a reply to conversation A, then open conversation B before the server answers: B's pane ends with the reply posted to A | the reply is shown only in the conversation it was posted to | medium; not executed | DashboardSession.FinishReply, DashboardSession.ReplyShownInOtherConversation | DashboardSession.FinishReplyFor, DashboardSession.FinishReplyForStaysInItsConversation, DashboardSession.UninterruptedReplyAgrees |
