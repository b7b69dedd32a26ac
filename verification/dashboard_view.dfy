/**
 The pure helpers of the agent dashboard (frontend/dashboard/app.js): channel
 icons and labels, display-name fallbacks, the avatar of a message bubble,
 customer tag parsing, the notification preview, the conversation-list URL
 and what the list renders.
 */
module DashboardView {

  import opened JsText
  import UriComponent
  import Notifications

  type ConversationId = Notifications.ConversationId

  const ApiBase: string := "http://localhost:8000"

  /** The icon lookup table of `getChannelIcon`. */
  const ChannelIcons: map<string, string> :=
    map["kakao" := "💬", "instagram" := "📷", "facebook" := "📘", "widget" := "🌐"]

  /** The label lookup table of `getChannelLabel`. */
  const ChannelLabels: map<string, string> :=
    map["kakao" := "카카오톡", "instagram" := "인스타그램", "facebook" := "페이스북", "widget" := "웹 위젯"]

  /** The platform table of the customer panel: the channel labels plus e-mail. */
  const PlatformLabels: map<string, string> :=
    map["kakao" := "카카오톡", "instagram" := "인스타그램", "facebook" := "페이스북",
        "widget" := "웹 위젯", "email" := "이메일"]

  const DefaultIcon: string := "💬"

  /** `getChannelIcon`: the table's icon, or the speech balloon for anything else. */
  function ChannelIcon(channelType: string): (icon: string)
    ensures channelType in ChannelIcons ==> icon == ChannelIcons[channelType]
    ensures channelType !in ChannelIcons ==> icon == DefaultIcon
    ensures Truthy(icon)
  {
    if channelType in ChannelIcons then ChannelIcons[channelType] else DefaultIcon
  }

  /** `getChannelLabel`: the table's label, or the channel type itself. */
  function ChannelLabel(channelType: string): (shown: string)
    ensures channelType in ChannelLabels ==> shown == ChannelLabels[channelType]
    ensures channelType !in ChannelLabels ==> shown == channelType
  {
    if channelType in ChannelLabels then ChannelLabels[channelType] else channelType
  }

  /**
   The customer panel's platform text: the table's label, otherwise the
   platform itself (a missing platform renders as empty text).
   */
  function PlatformLabel(platform: Option<string>): (shown: string)
    ensures platform.Some? && platform.value in PlatformLabels ==> shown == PlatformLabels[platform.value]
    ensures platform.Some? && platform.value !in PlatformLabels ==> shown == platform.value
    ensures platform.None? ==> shown == ""
  {
    match platform
    case None => ""
    case Some(p) => if p in PlatformLabels then PlatformLabels[p] else p
  }

  /**
   The two label tables agree: the platform label of every channel type other
   than `email` is its channel label.
   */
  lemma PlatformExtendsChannel(t: string)
    requires t != "email"
    ensures PlatformLabel(Some(t)) == ChannelLabel(t)
  {
  }

  /** Only `email` is labelled differently by the customer panel and the list. */
  lemma EmailLabelsDiffer()
    ensures PlatformLabel(Some("email")) != ChannelLabel("email")
  {
    assert ChannelLabel("email") == "email";
    assert PlatformLabel(Some("email")) == "이메일";
  }

  /** One conversation as the list endpoint returns it. */
  datatype ConversationSummary = ConversationSummary(
    id: ConversationId,
    channelType: string,
    profileName: Option<string>,
    lastMessage: Option<string>)

  /** The title of a list row: icon, then the profile name or `손님 #<id>`. */
  function ConversationTitle(c: ConversationSummary): (title: string)
    ensures TruthyText(c.profileName) ==> title == ChannelIcon(c.channelType) + " " + c.profileName.value
    ensures !TruthyText(c.profileName) ==>
              title == ChannelIcon(c.channelType) + " 손님 #" + IntToString(c.id)
  {
    ChannelIcon(c.channelType) + " " + OrElse(c.profileName, "손님 #" + IntToString(c.id))
  }

  /** Rows without a profile name are told apart by their ids. */
  lemma {:induction false} UnnamedTitlesDistinct(a: ConversationSummary, b: ConversationSummary)
    requires !TruthyText(a.profileName) && !TruthyText(b.profileName)
    requires a.channelType == b.channelType && a.id != b.id
    ensures ConversationTitle(a) != ConversationTitle(b)
  {
    var prefix := ChannelIcon(a.channelType) + " 손님 #";
    if ConversationTitle(a) == ConversationTitle(b) {
      assert IntToString(a.id) == ConversationTitle(a)[|prefix|..];
      assert IntToString(b.id) == ConversationTitle(b)[|prefix|..];
      IntToStringInjective(a.id, b.id);
    }
  }

  /** The second line of a list row: `[label] last message`. */
  function ConversationSubtitle(c: ConversationSummary): (sub: string)
    ensures sub == "[" + ChannelLabel(c.channelType) + "] "
                 + (if TruthyText(c.lastMessage) then c.lastMessage.value else "메시지 없음")
  {
    "[" + ChannelLabel(c.channelType) + "] " + OrElse(c.lastMessage, "메시지 없음")
  }

  /**
   The sender name given to a message when a conversation is opened: its own
   name, else one derived from the sender type.
   */
  function HistorySenderName(senderType: string, senderName: Option<string>): (name: string)
    ensures TruthyText(senderName) ==> name == senderName.value
    ensures !TruthyText(senderName) && senderType == "customer" ==> name == "고객"
    ensures !TruthyText(senderName) && senderType == "agent" ==> name == "상담원"
    ensures !TruthyText(senderName) && senderType != "customer" && senderType != "agent" ==> name == "AI"
    ensures Truthy(name)
  {
    OrElse(senderName, if senderType == "customer" then "고객" else if senderType == "agent" then "상담원" else "AI")
  }

  /** The customer panel's name: the name, else the external id, else `고객`. */
  function CustomerDisplayName(name: Option<string>, externalId: Option<string>): (shown: string)
    ensures TruthyText(name) ==> shown == name.value
    ensures !TruthyText(name) && TruthyText(externalId) ==> shown == externalId.value
    ensures !TruthyText(name) && !TruthyText(externalId) ==> shown == "고객"
    ensures Truthy(shown)
  {
    OrElse(name, OrElse(externalId, "고객"))
  }

  /**
   The avatar of a message bubble. `Initial` holds the first character of
   the sender name; the upper-casing applied to it is presentation.
   */
  datatype Avatar = Photo(url: string) | Initial(letter: char) | Caption(text: string)

  /** The avatar precedence: profile image, then sender name, then sender type, then `?`. */
  function AvatarFor(senderType: string, senderName: Option<string>, profileImage: Option<string>): (a: Avatar)
    ensures a.Photo? <==> TruthyText(profileImage)
    ensures a.Photo? ==> a.url == profileImage.value
    ensures a.Initial? <==> !TruthyText(profileImage) && TruthyText(senderName)
    ensures a.Initial? ==> a.letter == senderName.value[0]
    ensures a.Caption? ==> a.text == CaptionFor(senderType)
  {
    if TruthyText(profileImage) then Photo(profileImage.value)
    else if TruthyText(senderName) then Initial(senderName.value[0])
    else Caption(CaptionFor(senderType))
  }

  /** The avatar text for a bubble with neither image nor name. */
  function CaptionFor(senderType: string): (text: string)
    ensures senderType == "customer" ==> text == "고객"
    ensures senderType == "agent" ==> text == "상담원"
    ensures senderType == "bot" ==> text == "🤖"
    ensures senderType !in {"customer", "agent", "bot"} ==> text == "?"
  {
    if senderType == "customer" then "고객"
    else if senderType == "agent" then "상담원"
    else if senderType == "bot" then "🤖"
    else "?"
  }

  /** One bubble of the message pane. */
  datatype Bubble = Bubble(text: string, senderType: string, senderName: Option<string>, avatar: Avatar)

  /**
   `appendMessageWithDetails(text, senderType, _, senderName, profileImage)`
   as a value: the name line is shown only for a truthy name.
   */
  function MakeBubble(text: string, senderType: string, senderName: Option<string>, profileImage: Option<string>): (b: Bubble)
    ensures b.text == text && b.senderType == senderType
    ensures b.senderName == Nonblank(senderName)
    ensures b.avatar == AvatarFor(senderType, senderName, profileImage)
  {
    Bubble(text, senderType, Nonblank(senderName), AvatarFor(senderType, senderName, profileImage))
  }

  /** A name given to a bubble always decides its avatar unless there is a photo. */
  lemma NamedBubbleAvatar(text: string, senderType: string, name: string)
    requires Truthy(name)
    ensures MakeBubble(text, senderType, Some(name), None).avatar == Initial(name[0])
    ensures MakeBubble(text, senderType, Some(name), None).senderName == Some(name)
  {
  }

  /* ---------------- customer tags ---------------- */

  /** `map(f)` on strings: `f` applied to every entry, in order. */
  function MapStrings(f: string -> string, xs: seq<string>): (r: seq<string>)
    ensures |r| == |xs|
    ensures forall k :: 0 <= k < |r| ==> r[k] == f(xs[k])
  {
    if |xs| == 0 then [] else [f(xs[0])] + MapStrings(f, xs[1..])
  }

  /** `map(t => t.trim())`: every piece trimmed, in order. */
  function TrimAll(pieces: seq<string>): (r: seq<string>)
    ensures |r| == |pieces|
    ensures forall k :: 0 <= k < |r| ==> r[k] == Trim(pieces[k])
  {
    MapStrings(Trim, pieces)
  }

  /** `filter(Boolean)` on strings: the non-empty entries, in order. */
  function KeepTruthy(ts: seq<string>): (kept: seq<string>)
    ensures |kept| <= |ts|
    ensures forall k :: 0 <= k < |kept| ==> kept[k] != "" && kept[k] in ts
  {
    if |ts| == 0 then []
    else (if ts[0] == "" then [] else [ts[0]]) + KeepTruthy(ts[1..])
  }

  /** The trimmed, non-empty pieces, in order. */
  function KeepNonBlank(pieces: seq<string>): (tags: seq<string>)
    ensures |tags| <= |pieces|
    ensures forall k :: 0 <= k < |tags| ==> Truthy(tags[k]) && IsTrimmed(tags[k])
  {
    KeepTruthy(TrimAll(pieces))
  }

  /** `tags.split(",").map(t => t.trim()).filter(Boolean)`. */
  function TagsOf(s: string): (tags: seq<string>)
    ensures forall k :: 0 <= k < |tags| ==> Truthy(tags[k]) && IsTrimmed(tags[k]) && ',' !in tags[k]
  {
    var pieces := Split(s, ',');
    var tags := KeepNonBlank(pieces);
    KeepNonBlankFrom(pieces, ',');
    tags
  }

  /** A tag is a slice of one piece, so it carries no character the pieces lack. */
  lemma KeepNonBlankFrom(pieces: seq<string>, sep: char)
    requires forall k :: 0 <= k < |pieces| ==> sep !in pieces[k]
    ensures forall k :: 0 <= k < |KeepNonBlank(pieces)| ==> sep !in KeepNonBlank(pieces)[k]
  {
    var trimmed := TrimAll(pieces);
    forall j | 0 <= j < |trimmed|
      ensures sep !in trimmed[j]
    {
      TrimKeepsAbsent(pieces[j], sep);
    }
  }

  /** `customer.tags` parsed: nothing when the field is missing or empty. */
  function ParseTags(tags: Option<string>): (r: seq<string>)
    ensures !TruthyText(tags) ==> r == []
    ensures TruthyText(tags) ==> r == TagsOf(tags.value)
  {
    if TruthyText(tags) then TagsOf(tags.value) else []
  }

  lemma {:induction false} KeepTruthyAppend(xs: seq<string>, ys: seq<string>)
    ensures KeepTruthy(xs + ys) == KeepTruthy(xs) + KeepTruthy(ys)
  {
    if |xs| > 0 {
      var h := if xs[0] == "" then [] else [xs[0]];
      assert (xs + ys)[0] == xs[0];
      assert (xs + ys)[1..] == xs[1..] + ys;
      KeepTruthyAppend(xs[1..], ys);
      assert h + (KeepTruthy(xs[1..]) + KeepTruthy(ys)) == (h + KeepTruthy(xs[1..])) + KeepTruthy(ys);
    } else {
      assert xs + ys == ys;
    }
  }

  lemma {:induction false} MapStringsAppend(f: string -> string, xs: seq<string>, ys: seq<string>)
    ensures MapStrings(f, xs + ys) == MapStrings(f, xs) + MapStrings(f, ys)
  {
    if |xs| > 0 {
      assert (xs + ys)[0] == xs[0];
      assert (xs + ys)[1..] == xs[1..] + ys;
      MapStringsAppend(f, xs[1..], ys);
      var h := [f(xs[0])];
      assert h + (MapStrings(f, xs[1..]) + MapStrings(f, ys)) == (h + MapStrings(f, xs[1..])) + MapStrings(f, ys);
    } else {
      assert xs + ys == ys;
    }
  }

  lemma KeepNonBlankAppend(xs: seq<string>, ys: seq<string>)
    ensures KeepNonBlank(xs + ys) == KeepNonBlank(xs) + KeepNonBlank(ys)
  {
    MapStringsAppend(Trim, xs, ys);
    var left, right := TrimAll(xs), TrimAll(ys);
    KeepTruthyAppend(left, right);
  }

  /**
   Source order is kept: the tags of `a,b` are the tags of `a` followed by
   the tags of `b`.
   */
  lemma TagsAround(a: string, b: string)
    ensures TagsOf(a + "," + b) == TagsOf(a) + TagsOf(b)
  {
    SplitAround(a, ',', b);
    KeepNonBlankAppend(Split(a, ','), Split(b, ','));
  }

  /** Every non-empty entry is kept. */
  lemma {:induction false} NonEmptyIsKept(ts: seq<string>, k: int)
    requires 0 <= k < |ts| && ts[k] != ""
    ensures ts[k] in KeepTruthy(ts)
  {
    var h := if ts[0] == "" then [] else [ts[0]];
    assert KeepTruthy(ts) == h + KeepTruthy(ts[1..]);
    if k > 0 {
      assert ts[1..][k - 1] == ts[k];
      NonEmptyIsKept(ts[1..], k - 1);
    }
  }

  lemma KeepNonBlankMembers(pieces: seq<string>, t: string)
    ensures t in KeepNonBlank(pieces) <==> (Truthy(t) && exists k :: 0 <= k < |pieces| && Trim(pieces[k]) == t)
  {
    var trimmed := TrimAll(pieces);
    if t in KeepNonBlank(pieces) {
      var k :| 0 <= k < |trimmed| && trimmed[k] == t;
    }
    if Truthy(t) && (exists k :: 0 <= k < |pieces| && Trim(pieces[k]) == t) {
      var k :| 0 <= k < |pieces| && Trim(pieces[k]) == t;
      NonEmptyIsKept(trimmed, k);
    }
  }

  /** Every non-blank piece of the field becomes a tag, and nothing else does. */
  lemma TagsAreTrimmedPieces(s: string, t: string)
    ensures var pieces := Split(s, ',');
            t in TagsOf(s) <==> (Truthy(t) && exists k :: 0 <= k < |pieces| && Trim(pieces[k]) == t)
  {
    TagsOfIsKept(s);
    KeepNonBlankMembers(Split(s, ','), t);
  }

  lemma TagsOfIsKept(s: string)
    ensures TagsOf(s) == KeepNonBlank(Split(s, ','))
  {
  }

  /* ---------------- notification preview ---------------- */

  const PreviewLimit: nat := 50
  const DefaultPreviewText: string := "새 메시지가 도착했습니다"

  /** At most 50 characters are kept; a longer text gets `...` appended. */
  function Preview(text: string): (r: string)
    ensures |text| <= PreviewLimit ==> r == text
    ensures |text| > PreviewLimit ==> |r| == PreviewLimit + 3 && r[..PreviewLimit] == text[..PreviewLimit]
                                       && r[PreviewLimit..] == "..."
    ensures |r| <= PreviewLimit + 3
  {
    if |text| > PreviewLimit then text[..PreviewLimit] + "..." else text
  }

  /** Previewing a preview changes nothing. */
  lemma PreviewIdempotent(text: string)
    ensures Preview(Preview(text)) == Preview(text)
  {
    var r := Preview(text);
    if |text| > PreviewLimit {
      assert r == r[..PreviewLimit] + r[PreviewLimit..];
    }
  }

  /**
   A text longer than the limit can still come back unchanged: one that
   already ends in `...` at the cut.
   */
  lemma PreviewFixesLongDots(text: string)
    requires |text| == PreviewLimit + 3 && text[PreviewLimit..] == "..."
    ensures Preview(text) == text
  {
    assert text == text[..PreviewLimit] + text[PreviewLimit..];
  }

  /** The notification body for a customer message: its content, defaulted, previewed. */
  function NotificationBody(content: Option<string>): (body: string)
    ensures TruthyText(content) ==> body == Preview(content.value)
    ensures !TruthyText(content) ==> body == DefaultPreviewText
  {
    Preview(OrElse(content, DefaultPreviewText))
  }

  /** The notification title: `<name>님의 새 메시지`. */
  function NotificationTitle(customerName: Option<string>): (title: string)
    ensures title == (if TruthyText(customerName) then customerName.value else "고객") + "님의 새 메시지"
  {
    OrElse(customerName, "고객") + "님의 새 메시지"
  }

  /* ---------------- conversation list ---------------- */

  const ListPath: string := ApiBase + "/conversations"
  const ChannelQuery: string := "?channel="

  /** A channel filter narrows the list unless it is missing, empty or `all`. */
  predicate Filters(channel: Option<string>) {
    TruthyText(channel) && channel.value != "all"
  }

  /** The URL `loadConversations(channel)` fetches. */
  function ListUrl(channel: Option<string>): (url: string)
    ensures !Filters(channel) ==> url == ListPath
    ensures Filters(channel) ==> |url| > |ListPath + ChannelQuery|
    ensures Filters(channel) ==> url[..|ListPath + ChannelQuery|] == ListPath + ChannelQuery
  {
    if Filters(channel) then ListPath + ChannelQuery + UriComponent.EncodeComponent(channel.value)
    else ListPath
  }

  /**
   A filtered URL carries the channel exactly: the query value decodes to the
   UTF-8 bytes of the channel and cannot end the parameter early.
   */
  lemma ListUrlCarriesChannel(channel: string)
    requires Truthy(channel) && channel != "all"
    ensures var url := ListUrl(Some(channel));
            var value := url[|ListPath| + |ChannelQuery|..];
            && UriComponent.PercentDecode(value) == Some(UriComponent.Utf8String(channel))
            && '&' !in value && '#' !in value && '=' !in value
  {
    var value := UriComponent.EncodeComponent(channel);
    var url := ListUrl(Some(channel));
    assert url == (ListPath + ChannelQuery) + value;
    assert url[|ListPath| + |ChannelQuery|..] == value;
    UriComponent.DecodeEncode(channel);
    UriComponent.EncodedHasNoDelimiters(channel);
  }

  /** `all` and no filter fetch the same list. */
  lemma AllMeansNoFilter()
    ensures ListUrl(Some("all")) == ListUrl(None) == ListPath
  {
  }

  /** One rendered row of the list. */
  datatype ListRow = ListRow(id: ConversationId, title: string, subtitle: string)

  /** The list element after a load: untouched, the empty placeholder, or rows. */
  datatype ListView = Untouched | NoConversations | Listed(rows: seq<ListRow>)

  /** A list request's result: the conversations, or a non-OK response. */
  datatype ListResponse = ListOk(conversations: seq<ConversationSummary>) | ListFailed

  function RowFor(c: ConversationSummary): ListRow {
    ListRow(c.id, ConversationTitle(c), ConversationSubtitle(c))
  }

  /**
   `loadConversations`: without a token, on a failed response or without the
   list element nothing changes; an empty list shows one placeholder; otherwise
   the list is replaced wholesale by one row per conversation, in order.
   */
  function LoadConversations(token: Option<string>, response: ListResponse, listMounted: bool): (v: ListView)
    ensures !TruthyText(token) || response.ListFailed? || !listMounted ==> v == Untouched
    ensures v.NoConversations? <==>
              TruthyText(token) && listMounted && response.ListOk? && |response.conversations| == 0
    ensures v.Listed? ==> response.ListOk? && |v.rows| == |response.conversations| > 0
    ensures v.Listed? ==> forall k :: 0 <= k < |v.rows| ==>
              (v.rows[k].id == response.conversations[k].id
               && v.rows[k].title == ConversationTitle(response.conversations[k]))
  {
    if !TruthyText(token) || !listMounted then Untouched
    else match response
      case ListFailed => Untouched
      case ListOk(cs) =>
        if |cs| == 0 then NoConversations
        else Listed(seq(|cs|, k requires 0 <= k < |cs| => RowFor(cs[k])))
  }

  /* ---------------- customer panel ---------------- */

  datatype Customer = Customer(
    id: int,
    name: Option<string>,
    externalId: Option<string>,
    platform: Option<string>,
    phone: Option<string>,
    gender: Option<string>,
    age: Option<string>,
    tags: Option<string>,
    memo: Option<string>,
    profileImage: Option<string>)

  /** What `displayCustomerInfo` fills in. */
  datatype CustomerView = CustomerView(
    photo: Option<string>,
    name: string,
    platform: string,
    externalId: string,
    phone: string,
    gender: string,
    age: string,
    tags: seq<string>,
    memo: string,
    memoOwner: int)

  function CustomerViewOf(c: Customer): (v: CustomerView)
    ensures v.photo == Nonblank(c.profileImage)
    ensures v.name == CustomerDisplayName(c.name, c.externalId)
    ensures v.platform == PlatformLabel(c.platform)
    ensures v.externalId == OrElse(c.externalId, "-") && v.phone == OrElse(c.phone, "-")
    ensures v.gender == OrElse(c.gender, "-") && v.age == OrElse(c.age, "-")
    ensures v.tags == ParseTags(c.tags) && v.memo == OrElse(c.memo, "") && v.memoOwner == c.id
  {
    CustomerView(
      Nonblank(c.profileImage), CustomerDisplayName(c.name, c.externalId), PlatformLabel(c.platform),
      OrElse(c.externalId, "-"), OrElse(c.phone, "-"), OrElse(c.gender, "-"), OrElse(c.age, "-"),
      ParseTags(c.tags), OrElse(c.memo, ""), c.id)
  }

  /**
   The panel's tags are exactly the non-empty trimmed comma-separated pieces
   of the customer's tag field, and there are none when the field is
   missing or empty.
   */
  lemma CustomerViewTags(c: Customer, t: string)
    ensures !TruthyText(c.tags) ==> CustomerViewOf(c).tags == []
    ensures TruthyText(c.tags) ==>
              var pieces := Split(c.tags.value, ',');
              (t in CustomerViewOf(c).tags <==> (Truthy(t) && exists k :: 0 <= k < |pieces| && Trim(pieces[k]) == t))
  {
    if TruthyText(c.tags) {
      TagsAreTrimmedPieces(c.tags.value, t);
    }
  }

  /** A customer with every optional field missing shows `고객`, dashes, no tags and an empty memo. */
  lemma BlankCustomerView(c: Customer)
    requires c.name.None? && c.externalId.None? && c.platform.None? && c.phone.None?
    requires c.gender.None? && c.age.None? && c.tags.None? && c.memo.None? && c.profileImage.None?
    ensures CustomerViewOf(c) == CustomerView(None, "고객", "", "-", "-", "-", "-", [], "", c.id)
  {
  }

  /** A non-empty name always wins over the external id, which still has its own row. */
  lemma NamedCustomerView(c: Customer)
    requires TruthyText(c.name) && TruthyText(c.externalId)
    ensures CustomerViewOf(c).name == c.name.value && CustomerViewOf(c).externalId == c.externalId.value
  {
  }
}
