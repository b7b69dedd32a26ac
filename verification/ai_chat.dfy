/**
 The dashboard's AI assistant panel (dashboard/ai-chat.js): the agent's
 question is shown at once with a typing indicator after it, the answer (or
 an apology) replaces the indicator when the request settles, and the send
 button is re-enabled at the end.
 */
module AiChat {

  import opened JsText

  /** One element of `#ai-messages`. */
  datatype AiItem =
    | AiMessage(sender: string, avatar: string, text: string, time: Option<string>)
    | TypingIndicator

  /** The panel's contents: whether the welcome block is still there, then the items in order. */
  datatype AiPane = AiPane(welcome: bool, items: seq<AiItem>)

  /** The panel, the input box, the send button and the requests not yet settled. */
  datatype AiState = AiState(pane: Option<AiPane>, input: string, sendDisabled: bool, inFlight: nat)

  datatype AiEffect = Alert(text: string) | Redirect(url: string) | PostChat(message: string, token: string)

  const BotAvatar := "🤖"
  const UserAvatar := "👤"
  const NoAnswerText := "죄송합니다. 답변을 생성할 수 없습니다."
  const ApologyText := "죄송합니다. 일시적인 오류가 발생했습니다. 잠시 후 다시 시도해주세요."

  /** The messages of a pane, typing indicators left out. */
  function Messages(items: seq<AiItem>): (r: seq<AiItem>)
    ensures forall k :: 0 <= k < |r| ==> r[k].AiMessage?
    ensures |r| <= |items|
  {
    if |items| == 0 then []
    else (if items[0].AiMessage? then [items[0]] else []) + Messages(items[1..])
  }

  /** The number of typing indicators in a pane. */
  function TypingCount(items: seq<AiItem>): nat {
    if |items| == 0 then 0 else (if items[0].TypingIndicator? then 1 else 0) + TypingCount(items[1..])
  }

  lemma {:induction false} ItemsAppend(a: seq<AiItem>, b: seq<AiItem>)
    ensures Messages(a + b) == Messages(a) + Messages(b)
    ensures TypingCount(a + b) == TypingCount(a) + TypingCount(b)
  {
    if |a| > 0 {
      assert (a + b)[1..] == a[1..] + b;
      ItemsAppend(a[1..], b);
    } else {
      assert a + b == b;
    }
  }

  /** A pane never shows the welcome block next to a message. */
  predicate WelcomeOnlyWhenEmpty(p: AiPane) {
    p.welcome ==> Messages(p.items) == []
  }

  /**
   `appendAIMessage(text, sender, timestamp)`: nothing without the messages
   container; otherwise the welcome block goes and one message is added, with
   the robot avatar for the bot and the person avatar for anyone else, and a
   time line only when a timestamp is given.
   */
  function AppendAIMessage(pane: Option<AiPane>, text: string, sender: string, timestamp: Option<string>): (r: Option<AiPane>)
    ensures pane.None? <==> r.None?
    ensures r.Some? ==> !r.value.welcome
    ensures r.Some? ==> |r.value.items| == |pane.value.items| + 1 && r.value.items[..|pane.value.items|] == pane.value.items
    ensures r.Some? ==> Messages(r.value.items) == Messages(pane.value.items) + [r.value.items[|r.value.items| - 1]]
    ensures r.Some? ==> TypingCount(r.value.items) == TypingCount(pane.value.items)
    ensures r.Some? ==> var m := r.value.items[|r.value.items| - 1];
              && m.AiMessage? && m.text == text && m.sender == sender
              && (m.avatar == BotAvatar <==> sender == "bot")
              && (m.time.Some? <==> TruthyText(timestamp))
  {
    match pane
    case None => None
    case Some(p) =>
      var m := AiMessage(sender, if sender == "bot" then BotAvatar else UserAvatar, text,
                         if TruthyText(timestamp) then timestamp else None);
      ItemsAppend(p.items, [m]);
      Some(AiPane(false, p.items + [m]))
  }

  /** `showTypingIndicator`: one more indicator at the end; the messages are untouched. */
  function ShowTyping(p: AiPane): (r: AiPane)
    ensures r.welcome == p.welcome && Messages(r.items) == Messages(p.items)
    ensures TypingCount(r.items) == TypingCount(p.items) + 1
  {
    ItemsAppend(p.items, [TypingIndicator]);
    p.(items := p.items + [TypingIndicator])
  }

  /** Removes the first typing indicator in document order, if any. */
  function RemoveFirstTyping(items: seq<AiItem>): (r: seq<AiItem>)
    ensures Messages(r) == Messages(items)
    ensures TypingCount(items) == 0 ==> r == items
    ensures TypingCount(items) > 0 ==> TypingCount(r) == TypingCount(items) - 1 && |r| == |items| - 1
  {
    if |items| == 0 then []
    else if items[0].TypingIndicator? then items[1..]
    else [items[0]] + RemoveFirstTyping(items[1..])
  }

  /** `hideTypingIndicator`. */
  function HideTyping(p: AiPane): (r: AiPane)
    ensures r.welcome == p.welcome && Messages(r.items) == Messages(p.items)
    ensures TypingCount(r.items) == if TypingCount(p.items) > 0 then TypingCount(p.items) - 1 else 0
  {
    p.(items := RemoveFirstTyping(p.items))
  }

  /**
   The panel's invariant: with the container present the welcome block and
   messages never coexist and there are no more typing indicators than
   requests in flight; a request is only ever in flight with a container.
   */
  predicate Valid(st: AiState) {
    && (st.pane.Some? ==> WelcomeOnlyWhenEmpty(st.pane.value) && TypingCount(st.pane.value.items) <= st.inFlight)
    && (st.inFlight > 0 ==> st.pane.Some?)
  }

  /** The panel as the page loads it. */
  function Initial(pane: Option<AiPane>): (r: AiState)
    requires pane.Some? ==> pane.value == AiPane(true, [])
    ensures Valid(r) && r.inFlight == 0 && !r.sendDisabled
  {
    AiState(pane, "", false, 0)
  }

  /**
   The synchronous part of `sendAIMessage`: an input that trims to nothing
   does nothing; without a token the agent is alerted and sent to the login
   page. Otherwise the question is shown, the input cleared and the button
   disabled; with no container the typing indicator throws and nothing is
   requested (the button stays disabled), else an indicator is shown and the
   question posted. The disabled button does not guard the Enter key, so a
   send may start while another is in flight.
   */
  function SendBegin(st: AiState, token: Option<string>, now: string): (r: (AiState, seq<AiEffect>))
    requires Valid(st)
    ensures Valid(r.0)
    ensures Trim(st.input) == "" ==> r == (st, [])
    ensures Trim(st.input) != "" && !TruthyText(token) ==> r == (st, [Alert("로그인이 필요합니다."), Redirect("login.html")])
    ensures Trim(st.input) != "" && TruthyText(token) ==> r.0.input == "" && r.0.sendDisabled
    ensures Trim(st.input) != "" && TruthyText(token) && st.pane.None? ==> r.0.inFlight == st.inFlight && r.1 == []
    ensures Trim(st.input) != "" && TruthyText(token) && st.pane.Some? ==>
              && r.0.inFlight == st.inFlight + 1
              && r.1 == [PostChat(Trim(st.input), token.value)]
              && r.0.pane.value.items == AppendAIMessage(st.pane, Trim(st.input), "user", Some(now)).value.items + [TypingIndicator]
  {
    var text := Trim(st.input);
    if text == "" then (st, [])
    else if !TruthyText(token) then (st, [Alert("로그인이 필요합니다."), Redirect("login.html")])
    else
      var shown := AppendAIMessage(st.pane, text, "user", Some(now));
      var cleared := st.(input := "", sendDisabled := true);
      match shown
      case None => (cleared, [])
      case Some(p) => (cleared.(pane := Some(ShowTyping(p)), inFlight := st.inFlight + 1), [PostChat(text, token.value)])
  }

  /** How the request settled. */
  datatype AiOutcome =
    | NetworkError
    | HttpError
    | MalformedBody
    | Reply(response: Option<string>)

  /** The bot's answer for a settled request. */
  function AnswerText(outcome: AiOutcome): (text: string)
    ensures outcome.Reply? && TruthyText(outcome.response) ==> text == outcome.response.value
    ensures outcome.Reply? && !TruthyText(outcome.response) ==> text == NoAnswerText
    ensures !outcome.Reply? ==> text == ApologyText
    ensures Truthy(text)
  {
    if outcome.Reply? then OrElse(outcome.response, NoAnswerText) else ApologyText
  }

  /**
   How many times the indicator is hidden: once in the `try` after the
   response arrives and once more in the `catch`, so a failed status or an
   unreadable body hides two, a failed fetch one, a good reply one.
   */
  function Hides(outcome: AiOutcome): nat {
    match outcome
    case NetworkError => 1
    case HttpError => 2
    case MalformedBody => 2
    case Reply(_) => 1
  }

  /**
   The asynchronous part of `sendAIMessage`: the indicator is hidden, the
   bot's answer (or apology) added, and the button enabled.
   */
  function SendFinish(st: AiState, outcome: AiOutcome, now: string): (r: AiState)
    requires Valid(st) && st.inFlight > 0
    ensures Valid(r)
    ensures r.inFlight == st.inFlight - 1 && !r.sendDisabled && r.input == st.input
    ensures r.pane.Some? && !r.pane.value.welcome
    ensures var before := st.pane.value.items;
            var after := r.pane.value.items;
            && |Messages(after)| == |Messages(before)| + 1
            && Messages(after)[..|Messages(before)|] == Messages(before)
            && Messages(after)[|Messages(before)|].text == AnswerText(outcome)
            && Messages(after)[|Messages(before)|].avatar == BotAvatar
    ensures TypingCount(r.pane.value.items) ==
              if TypingCount(st.pane.value.items) >= Hides(outcome) then TypingCount(st.pane.value.items) - Hides(outcome)
              else 0
  {
    var p := st.pane.value;
    var hidden := if Hides(outcome) == 2 then HideTyping(HideTyping(p)) else HideTyping(p);
    var answered := AppendAIMessage(Some(hidden), AnswerText(outcome), "bot", Some(now));
    st.(pane := answered, sendDisabled := false, inFlight := st.inFlight - 1)
  }

  /**
   One send run to completion with nothing else in flight: the panel ends
   with no typing indicator, the button enabled, and exactly the question and
   the bot's answer added to the messages.
   */
  lemma SendToCompletion(st: AiState, token: Option<string>, now: string, later: string, outcome: AiOutcome)
    requires Valid(st) && st.inFlight == 0 && st.pane.Some?
    requires Trim(st.input) != "" && TruthyText(token)
    ensures var started := SendBegin(st, token, now).0;
            var done := SendFinish(started, outcome, later);
            && done.inFlight == 0 && !done.sendDisabled && done.input == ""
            && TypingCount(done.pane.value.items) == 0
            && |Messages(done.pane.value.items)| == |Messages(st.pane.value.items)| + 2
            && Messages(done.pane.value.items)[..|Messages(st.pane.value.items)|] == Messages(st.pane.value.items)
            && Messages(done.pane.value.items)[|Messages(st.pane.value.items)|].text == Trim(st.input)
            && Messages(done.pane.value.items)[|Messages(st.pane.value.items)| + 1].text == AnswerText(outcome)
  {
    BeginAddsQuestion(st, token, now);
    FinishAnswersQuestion(SendBegin(st, token, now).0, outcome, later, Messages(st.pane.value.items), Trim(st.input));
  }

  /** The second half of a send from rest: the indicator goes and the answer follows the question. */
  lemma FinishAnswersQuestion(started: AiState, outcome: AiOutcome, later: string, before: seq<AiItem>, question: string)
    requires Valid(started) && started.inFlight == 1 && started.pane.Some?
    requires TypingCount(started.pane.value.items) == 1
    requires |Messages(started.pane.value.items)| == |before| + 1
    requires Messages(started.pane.value.items)[..|before|] == before
    requires Messages(started.pane.value.items)[|before|].text == question
    ensures var done := SendFinish(started, outcome, later);
            && done.inFlight == 0 && !done.sendDisabled && done.input == started.input
            && TypingCount(done.pane.value.items) == 0
            && |Messages(done.pane.value.items)| == |before| + 2
            && Messages(done.pane.value.items)[..|before|] == before
            && Messages(done.pane.value.items)[|before|].text == question
            && Messages(done.pane.value.items)[|before| + 1].text == AnswerText(outcome)
  {
    var mid := Messages(started.pane.value.items);
    var after := Messages(SendFinish(started, outcome, later).pane.value.items);
    assert after[..|before|] == mid[..|before|];
    assert after[|before|] == mid[|before|];
  }

  /** The first half of a send from rest: one indicator, one question, one request in flight. */
  lemma BeginAddsQuestion(st: AiState, token: Option<string>, now: string)
    requires Valid(st) && st.inFlight == 0 && st.pane.Some?
    requires Trim(st.input) != "" && TruthyText(token)
    ensures var started := SendBegin(st, token, now).0;
            && started.inFlight == 1 && started.pane.Some? && started.input == ""
            && TypingCount(started.pane.value.items) == 1
            && |Messages(started.pane.value.items)| == |Messages(st.pane.value.items)| + 1
            && Messages(started.pane.value.items)[..|Messages(st.pane.value.items)|] == Messages(st.pane.value.items)
            && Messages(started.pane.value.items)[|Messages(st.pane.value.items)|].text == Trim(st.input)
  {
    var shown := AppendAIMessage(st.pane, Trim(st.input), "user", Some(now)).value;
    var started := SendBegin(st, token, now).0;
    assert started.pane.value == ShowTyping(shown);
  }

  /** With no request in flight there is never a typing indicator on the panel. */
  lemma NoTypingAtRest(st: AiState)
    requires Valid(st) && st.inFlight == 0 && st.pane.Some?
    ensures TypingCount(st.pane.value.items) == 0
  {
  }
  /* ---------------- the double hide ---------------- */

  /**
   With two questions in flight (the second sent with Enter while the button
   was disabled), a failed status for the first hides both indicators: the
   second request is still pending but its indicator is gone.
   */
  lemma DoubleHideLosesIndicator()
    ensures var q := AiMessage("user", UserAvatar, "q", None);
            var st := AiState(Some(AiPane(false, [q, TypingIndicator, q, TypingIndicator])), "", true, 2);
            && Valid(st)
            && SendFinish(st, HttpError, "t").inFlight == 1
            && TypingCount(SendFinish(st, HttpError, "t").pane.value.items) == 0
  {
    var q := AiMessage("user", UserAvatar, "q", None);
    var items := [q, TypingIndicator, q, TypingIndicator];
    assert TypingCount([TypingIndicator]) == 1;
    assert TypingCount([q, TypingIndicator]) == 1 by {
      assert [q, TypingIndicator][1..] == [TypingIndicator];
    }
    assert TypingCount([TypingIndicator, q, TypingIndicator]) == 2 by {
      assert [TypingIndicator, q, TypingIndicator][1..] == [q, TypingIndicator];
    }
    assert items[1..] == [TypingIndicator, q, TypingIndicator];
  }

  /** Every request in flight has exactly its own typing indicator. */
  predicate OneIndicatorPerRequest(st: AiState) {
    Valid(st) && (st.pane.Some? ==> TypingCount(st.pane.value.items) == st.inFlight)
  }

  lemma SendBeginKeepsOneIndicator(st: AiState, token: Option<string>, now: string)
    requires OneIndicatorPerRequest(st)
    ensures OneIndicatorPerRequest(SendBegin(st, token, now).0)
  {
  }

  /**
   The settling step as intended: the request's own indicator is hidden
   exactly once, whatever the outcome; the answer is the same.
   */
  function SendFinishOnce(st: AiState, outcome: AiOutcome, now: string): (r: AiState)
    requires OneIndicatorPerRequest(st) && st.inFlight > 0
    ensures OneIndicatorPerRequest(r)
    ensures r.inFlight == st.inFlight - 1 && !r.sendDisabled && r.input == st.input && r.pane.Some?
    ensures Messages(r.pane.value.items) == Messages(SendFinish(st, outcome, now).pane.value.items)
  {
    var hidden := HideTyping(st.pane.value);
    st.(pane := AppendAIMessage(Some(hidden), AnswerText(outcome), "bot", Some(now)), sendDisabled := false,
        inFlight := st.inFlight - 1)
  }

  /** With a single request in flight the code as written and the intended step agree. */
  lemma SingleSendAgrees(st: AiState, outcome: AiOutcome, now: string)
    requires OneIndicatorPerRequest(st) && st.inFlight == 1
    ensures SendFinish(st, outcome, now) == SendFinishOnce(st, outcome, now)
  {
    var p := st.pane.value;
    assert TypingCount(HideTyping(p).items) == 0;
  }
}
