/**
 * The message record the chat view shows (Telegram/ViewModels/MessageViewModel.cs): a
 * TDLib message kept in place and refreshed with `UpdateWith`, its display text, the
 * album caption it derives from the album's children, its memoised flags, and its
 * identity by (ChatId, Id).
 */
module Messages {
  import opened Wrappers
  import opened TdApi

  // ---------------------------------------------------------------------------
  // Message values
  // ---------------------------------------------------------------------------

  /** TDLib's `FormattedText`; entities are not modelled. */
  datatype FormattedText = FormattedText(text: string)

  /** The styled text `TextStyleRun.GetText` builds from a caption, kept as its source. */
  datatype StyledText = StyledText(source: FormattedText)

  /** An object the record only carries around (reply markup, reactions, states and so on). */
  datatype Handle = Handle(id: int)

  /** A child of an album: its caption (`GetCaption()`) and its own display text. */
  datatype AlbumChild = AlbumChild(caption: Option<FormattedText>, text: Option<StyledText>)

  datatype Content =
    | TextContent(formatted: FormattedText, hasWebPage: bool)
    | PhotoContent(photoCaption: FormattedText)
    | VideoContent(videoCaption: FormattedText)
    | AnimationContent(animationCaption: FormattedText)
    | AudioContent(audioCaption: FormattedText)
    | DocumentContent(documentCaption: FormattedText)
    | VoiceNoteContent(voiceCaption: FormattedText)
    | StickerContent
    | DiceContent
    | GameContent
    | InvoiceContent
    | ContactContent
    | LocationContent
    | Album(isMedia: bool, children: seq<AlbumChild>, albumCaption: FormattedText)
    | ServiceContent(kind: string)
    | OtherContent(kind: string)

  /**
   * The `GetCaption()` extension: the text of a text message, the caption of a captioned
   * medium or of an album, and nothing for any other content.
   */
  function Caption(content: Content): Option<FormattedText> {
    match content
    case TextContent(formatted, _) => Some(formatted)
    case PhotoContent(c) => Some(c)
    case VideoContent(c) => Some(c)
    case AnimationContent(c) => Some(c)
    case AudioContent(c) => Some(c)
    case DocumentContent(c) => Some(c)
    case VoiceNoteContent(c) => Some(c)
    case Album(_, _, c) => Some(c)
    case _ => None
  }

  datatype Origin =
    | OriginUser(senderUserId: int)
    | OriginHiddenUser(senderName: string)
    | OriginChat(senderChatId: int)
    | OriginChannel(channelChatId: int, messageId: int)

  /** `MessageForwardSource`: where a saved message came from. */
  datatype ForwardSource = ForwardSource(isOutgoing: bool)

  datatype ForwardInfo = ForwardInfo(origin: Origin, source: Option<ForwardSource>)

  /** TDLib's `Message`; reference fields that may be null are options. */
  datatype Message = Message(
    authorSignature: string,
    canBeDeletedForAllUsers: bool,
    canBeDeletedOnlyForSelf: bool,
    canBeEdited: bool,
    canBeSaved: bool,
    canBeForwarded: bool,
    canGetMessageThread: bool,
    canGetStatistics: bool,
    canBeRepliedInAnotherChat: bool,
    canGetViewers: bool,
    canGetReadDate: bool,
    chatId: int,
    containsUnreadMention: bool,
    content: Content,
    date: int,
    editDate: int,
    forwardInfo: Option<ForwardInfo>,
    id: int,
    isChannelPost: bool,
    isOutgoing: bool,
    isPinned: bool,
    messageThreadId: int,
    mediaAlbumId: int,
    replyMarkup: Option<Handle>,
    replyTo: Option<Handle>,
    senderId: MessageSender,
    sendingState: Option<Handle>,
    selfDestructType: Option<Handle>,
    selfDestructIn: real,
    autoDeleteIn: real,
    viaBotUserId: int,
    interactionInfo: Option<Handle>,
    unreadReactions: Handle,
    restrictionReason: string,
    savedMessagesTopicId: int,
    importInfo: Option<Handle>,
    isTopicMessage: bool,
    hasTimestampedMedia: bool,
    canReportReactions: bool,
    canGetMediaTimestampLinks: bool,
    canGetAddedReactions: bool,
    schedulingState: Option<Handle>)

  // ---------------------------------------------------------------------------
  // Display text
  // ---------------------------------------------------------------------------

  /** `SetText`'s choice: styled text for a non-empty caption, null otherwise. */
  function DisplayText(caption: Option<FormattedText>): (t: Option<StyledText>)
    ensures t.None? <==> caption.None? || |caption.value.text| == 0
    ensures t.Some? ==> t.value.source == caption.value
  {
    if caption.Some? && |caption.value.text| > 0 then Some(StyledText(caption.value)) else None
  }

  // ---------------------------------------------------------------------------
  // Album captions
  // ---------------------------------------------------------------------------

  predicate HasCaptionText(child: AlbumChild) {
    child.caption.Some? && |child.caption.value.text| > 0
  }

  /** How many children carry a non-empty caption. */
  function CaptionedCount(children: seq<AlbumChild>): nat {
    if |children| == 0 then 0
    else CaptionedCount(children[..|children| - 1]) + (if HasCaptionText(children[|children| - 1]) then 1 else 0)
  }

  /** The first child with a non-empty caption. */
  function FirstCaptioned(children: seq<AlbumChild>): (r: Option<nat>)
    ensures r.Some? ==> (r.value < |children| && HasCaptionText(children[r.value])
                         && CaptionedCount(children[..r.value]) == 0)
    ensures r.None? <==> CaptionedCount(children) == 0
  {
    if |children| == 0 then None
    else
      var front := children[..|children| - 1];
      match FirstCaptioned(front)
      case Some(i) =>
        assert front[..i] == children[..i];
        Some(i)
      case None =>
        if HasCaptionText(children[|children| - 1]) then Some(|children| - 1) else None
  }

  /** A media album's caption and text: those of its only captioned child, none when zero or several. */
  function MediaAlbumCaption(children: seq<AlbumChild>): (r: (Option<FormattedText>, Option<StyledText>))
    ensures CaptionedCount(children) != 1 ==> r == (None, None)
    ensures CaptionedCount(children) == 1 ==>
      exists i :: 0 <= i < |children| && HasCaptionText(children[i]) && r == (children[i].caption, children[i].text)
  {
    if CaptionedCount(children) == 1 then
      var i := FirstCaptioned(children).value;
      (children[i].caption, children[i].text)
    else (None, None)
  }

  /** The caption and text an album takes: by the rule above for media, the last child's otherwise. */
  function AlbumCaption(isMedia: bool, children: seq<AlbumChild>): (r: (Option<FormattedText>, Option<StyledText>))
    ensures |children| == 0 ==> r == (None, None)
    ensures !isMedia && |children| > 0 ==> r == (children[|children| - 1].caption, children[|children| - 1].text)
  {
    if isMedia then MediaAlbumCaption(children)
    else if |children| > 0 then (children[|children| - 1].caption, children[|children| - 1].text)
    else (None, None)
  }

  lemma {:induction false} CaptionedCountPrefix(children: seq<AlbumChild>, i: nat)
    requires i <= |children|
    ensures CaptionedCount(children[..i]) <= CaptionedCount(children)
    decreases |children| - i
  {
    if i < |children| {
      assert children[..i + 1][..i] == children[..i];
      CaptionedCountPrefix(children, i + 1);
    } else {
      assert children[..i] == children;
    }
  }

  /**
   * The `foreach` over a media album's children: the first child with a non-empty caption
   * supplies caption and text, and a second one clears both and stops the loop.
   */
  method AggregateMediaCaption(children: seq<AlbumChild>) returns (caption: Option<FormattedText>, text: Option<StyledText>)
    ensures (caption, text) == MediaAlbumCaption(children)
  {
    caption := None;
    text := None;
    var i := 0;
    while i < |children|
      invariant 0 <= i <= |children|
      invariant CaptionedCount(children[..i]) <= 1
      invariant caption.None? <==> CaptionedCount(children[..i]) == 0
      invariant caption.Some? ==> (FirstCaptioned(children[..i]).Some?
        && caption == children[FirstCaptioned(children[..i]).value].caption
        && text == children[FirstCaptioned(children[..i]).value].text)
      invariant caption.Some? ==> |caption.value.text| > 0
      invariant caption.None? ==> text.None?
    {
      var child := children[i];
      assert children[..i + 1][..i] == children[..i];
      if child.caption.Some? && |child.caption.value.text| > 0 {
        if caption.None? || |caption.value.text| == 0 {
          caption := child.caption;
          text := child.text;
          assert FirstCaptioned(children[..i + 1]) == Some(i);
        } else {
          CaptionedCountPrefix(children, i + 1);
          caption := None;
          text := None;
          return;
        }
      } else {
        if caption.Some? {
          assert FirstCaptioned(children[..i + 1]) == FirstCaptioned(children[..i]);
        }
      }
      i := i + 1;
    }
    assert children[..i] == children;
  }

  /** The second of two non-empty captions clears the caption, even when both are the same. */
  lemma TwoEqualCaptionsClear(c: FormattedText, t: StyledText)
    requires |c.text| > 0
    ensures MediaAlbumCaption([AlbumChild(Some(c), Some(t)), AlbumChild(Some(c), Some(t))]) == (None, None)
  {
    var child := AlbumChild(Some(c), Some(t));
    CountSingle(child);
    CountAppend([child], [child]);
    assert [child] + [child] == [child, child];
  }

  /** One captioned child among uncaptioned ones gives the album its caption and text. */
  lemma SingleCaptionWins(before: seq<AlbumChild>, child: AlbumChild, after: seq<AlbumChild>)
    requires HasCaptionText(child)
    requires CaptionedCount(before) == 0 && CaptionedCount(after) == 0
    ensures MediaAlbumCaption(before + [child] + after) == (child.caption, child.text)
  {
    var children := before + [child] + after;
    CountAppend(before + [child], after);
    CountAppend(before, [child]);
    assert [child][..0] == [];
    assert CaptionedCount([child]) == 1;
    var i := FirstCaptioned(children).value;
    if i < |before| {
      assert children[i] == before[i];
      CaptionedOne(before, i);
    } else if i > |before| {
      assert children[..i] == (before + [child]) + children[..i][|before| + 1..];
      CountAppend(before + [child], children[..i][|before| + 1..]);
    }
  }

  lemma {:induction false} CountAppend(a: seq<AlbumChild>, b: seq<AlbumChild>)
    ensures CaptionedCount(a + b) == CaptionedCount(a) + CaptionedCount(b)
    decreases |b|
  {
    if |b| == 0 {
      assert a + b == a;
    } else {
      assert (a + b)[..|a + b| - 1] == a + b[..|b| - 1];
      CountAppend(a, b[..|b| - 1]);
    }
  }

  lemma CountSingle(child: AlbumChild)
    ensures CaptionedCount([child]) == if HasCaptionText(child) then 1 else 0
  {
    assert [child][..0] == [];
  }

  /** A captioned child makes the count positive. */
  lemma CaptionedOne(children: seq<AlbumChild>, i: nat)
    requires i < |children| && HasCaptionText(children[i])
    ensures CaptionedCount(children) >= 1
  {
    assert children == children[..i] + [children[i]] + children[i + 1..];
    CountAppend(children[..i] + [children[i]], children[i + 1..]);
    CountAppend(children[..i], [children[i]]);
    assert [children[i]][..0] == [];
  }

  /** The album with captions "A", "" and "A" has no caption. */
  lemma CaptionsRepeatedAroundEmpty()
    ensures var a := AlbumChild(Some(FormattedText("A")), None);
      MediaAlbumCaption([a, AlbumChild(Some(FormattedText("")), None), a]) == (None, None)
  {
    var a := AlbumChild(Some(FormattedText("A")), None);
    var empty := AlbumChild(Some(FormattedText("")), None);
    CountSingle(a);
    CountSingle(empty);
    CountAppend([a], [empty]);
    CountAppend([a] + [empty], [a]);
    assert [a] + [empty] + [a] == [a, empty, a];
  }

  // ---------------------------------------------------------------------------
  // UpdateWith
  // ---------------------------------------------------------------------------

  /** The part of a record `UpdateWith` writes: the message and the display text. */
  datatype Merge = Merge(message: Message, text: Option<StyledText>)

  /**
   * `UpdateWith(from)` on a record holding `target` and `text`: every field comes from
   * `from` except the content and the date; an album's caption and the record's text are
   * then derived from the album's children.
   */
  function Merged(target: Message, text: Option<StyledText>, from: Message): (r: Merge)
    ensures r.message.id == from.id && r.message.chatId == from.chatId
  {
    AlbumRefresh(from.(content := target.content, date := target.date), text)
  }

  /** The album step of `UpdateWith`: an album's caption and the text follow its children. */
  function AlbumRefresh(m: Message, text: Option<StyledText>): Merge {
    if m.content.Album? then
      var captioned := AlbumCaption(m.content.isMedia, m.content.children);
      Merge(m.(content := Album(m.content.isMedia, m.content.children, captioned.0.GetOr(FormattedText("")))), captioned.1)
    else Merge(m, text)
  }

  lemma AlbumRefreshIdempotent(m: Message, text: Option<StyledText>)
    ensures var once := AlbumRefresh(m, text);
      AlbumRefresh(once.message, once.text) == once
  {
  }

  /** Applying the same message twice gives the same record as applying it once. */
  lemma MergedIdempotent(target: Message, text: Option<StyledText>, from: Message)
    ensures var once := Merged(target, text, from);
      Merged(once.message, once.text, from) == once
  {
    var once := Merged(target, text, from);
    var m := from.(content := target.content, date := target.date);
    assert once == AlbumRefresh(m, text);
    assert from.(content := once.message.content, date := once.message.date) == once.message;
    AlbumRefreshIdempotent(m, text);
  }

  /** The album step changes the content and nothing else, and keeps the kind of content. */
  lemma AlbumRefreshKeeps(m: Message, text: Option<StyledText>)
    ensures var r := AlbumRefresh(m, text);
      && r.message == m.(content := r.message.content)
      && (r.message.content.Album? <==> m.content.Album?)
      && (!m.content.Album? ==> r == Merge(m, text))
      && (m.content.Album? ==> r.message.content.children == m.content.children
                               && r.message.content.isMedia == m.content.isMedia)
  {
    if m.content.Album? {
      AlbumRefreshAlbum(m, text);
    } else {
      assert AlbumRefresh(m, text) == Merge(m, text);
    }
  }

  lemma AlbumRefreshAlbum(m: Message, text: Option<StyledText>)
    requires m.content.Album?
    ensures var captioned := AlbumCaption(m.content.isMedia, m.content.children);
      AlbumRefresh(m, text) ==
        Merge(m.(content := Album(m.content.isMedia, m.content.children, captioned.0.GetOr(FormattedText("")))), captioned.1)
  {
  }

  /**
   * After a merge every field of the message is the incoming one, (ChatId, Id) included,
   * except the date, which is kept, and the content, whose kind is kept; a non-album
   * content is kept as it was together with the text.
   */
  lemma MergedFields(target: Message, text: Option<StyledText>, from: Message)
    ensures var r := Merged(target, text, from).message;
      && r == from.(content := r.content, date := target.date)
      && (r.content.Album? <==> target.content.Album?)
      && (!target.content.Album? ==> r.content == target.content && Merged(target, text, from).text == text)
      && (target.content.Album? ==> r.content.children == target.content.children
                                    && r.content.isMedia == target.content.isMedia)
  {
    var m := from.(content := target.content, date := target.date);
    AlbumRefreshKeeps(m, text);
    var r := Merged(target, text, from).message;
    assert r == m.(content := r.content);
  }

  /** An empty album gets an empty caption and no text. */
  lemma EmptyAlbum(target: Message, text: Option<StyledText>, from: Message, isMedia: bool, old_: FormattedText)
    requires target.content == Album(isMedia, [], old_)
    ensures Merged(target, text, from).message.content == Album(isMedia, [], FormattedText(""))
    ensures Merged(target, text, from).text.None?
  {
  }

  // ---------------------------------------------------------------------------
  // Decision tables
  // ---------------------------------------------------------------------------

  /**
   * `GetCanBeShared` on message `m`, with `isSaved` the value the `IsSaved` flag gives
   * when it is reached.
   */
  function ShareRule(m: Message, isSaved: bool, chat: Option<Chat>, client: ClientService): (r: bool)
    ensures r ==> m.schedulingState.None? && m.canBeSaved
    ensures r && !isSaved ==> !m.content.StickerContent? || m.isChannelPost
  {
    if m.schedulingState.Some? || !m.canBeSaved then false
    else if isSaved then true
    else if m.content.StickerContent? || m.content.DiceContent? then false
    else if m.forwardInfo.Some? && m.forwardInfo.value.origin.OriginChannel? && !m.isOutgoing then true
    else if m.senderId.SenderUser? then
      if m.content.TextContent? && !m.content.hasWebPage then false
      else if m.isOutgoing then false
      else if client.GetUser(m.senderId.userId).Some? && client.GetUser(m.senderId.userId).value.userType == BotUser then true
      else if m.content.GameContent? || m.content.InvoiceContent? then true
      else if chat.Some? && chat.value.chatType.SupergroupChat? && !chat.value.chatType.isChannel then
        var supergroup := client.GetSupergroup(chat.value.chatType.supergroupId);
        supergroup.Some? && supergroup.value.isPublic && !m.content.ContactContent? && !m.content.LocationContent?
      else false
    else if m.isChannelPost then
      (m.viaBotUserId == 0 && m.replyTo.None?) || !m.content.StickerContent?
    else false
  }

  /** Does the rule consult `IsSaved`? Only once scheduling and `CanBeSaved` have passed. */
  predicate ShareReachesSaved(m: Message) {
    m.schedulingState.None? && m.canBeSaved
  }

  /** The first three rows, in their order: scheduled or unsaveable, then saved, then sticker or dice. */
  lemma ShareOrder(m: Message, isSaved: bool, chat: Option<Chat>, client: ClientService)
    ensures !ShareReachesSaved(m) ==> !ShareRule(m, isSaved, chat, client)
    ensures ShareReachesSaved(m) && isSaved ==> ShareRule(m, isSaved, chat, client)
    ensures ShareReachesSaved(m) && !isSaved && (m.content.StickerContent? || m.content.DiceContent?) ==>
      !ShareRule(m, isSaved, chat, client)
    ensures (ShareReachesSaved(m) && !isSaved && !m.content.StickerContent? && !m.content.DiceContent?
             && m.forwardInfo.Some? && m.forwardInfo.value.origin.OriginChannel? && !m.isOutgoing) ==>
      ShareRule(m, isSaved, chat, client)
  {
  }

  /**
   * A channel post not sent by a user that gets past the first three rows is always
   * shareable: stickers have already been refused, so the test on line 217 cannot fail.
   */
  lemma ChannelPostShareable(m: Message, isSaved: bool, chat: Option<Chat>, client: ClientService)
    requires ShareReachesSaved(m) && m.senderId.SenderChat? && m.isChannelPost
    requires !m.content.DiceContent?
    ensures ShareRule(m, isSaved, chat, client) <==> !m.content.StickerContent? || isSaved
  {
  }

  /** For a user's message past the first four rows: a plain text is never shareable, an outgoing one neither. */
  lemma UserMessageShare(m: Message, chat: Option<Chat>, client: ClientService)
    requires ShareReachesSaved(m) && m.senderId.SenderUser?
    requires !(m.forwardInfo.Some? && m.forwardInfo.value.origin.OriginChannel? && !m.isOutgoing)
    ensures m.content.TextContent? && !m.content.hasWebPage ==> !ShareRule(m, false, chat, client)
    ensures m.isOutgoing ==> !ShareRule(m, false, chat, client)
    ensures (!m.isOutgoing && client.IsBot(m.senderId.userId) && !m.content.StickerContent? && !m.content.DiceContent?
             && !(m.content.TextContent? && !m.content.hasWebPage)) ==> ShareRule(m, false, chat, client)
  {
  }

  /** `GetHasSenderPhoto`, with `isService` and `isSaved` the flags' values. */
  function SenderPhotoRule(m: Message, isService: bool, isSaved: bool, chat: Option<Chat>): (r: bool)
    ensures r ==> !isService && !m.isChannelPost
    ensures r && !isSaved ==> !m.isOutgoing && IsGroupChat(chat)
  {
    if isService then false
    else if m.isChannelPost then false
    else if isSaved && m.forwardInfo.Some? && m.forwardInfo.value.source.Some?
            && !m.forwardInfo.value.source.value.isOutgoing then true
    else if m.isOutgoing then false
    else IsGroupChat(chat)
  }

  /** `Chat?.Type is ChatTypeSupergroup or ChatTypeBasicGroup`. */
  predicate IsGroupChat(chat: Option<Chat>) {
    chat.Some? && (chat.value.chatType.SupergroupChat? || chat.value.chatType.BasicGroupChat?)
  }

  /** The sender photo table, row by row. */
  lemma SenderPhotoTable(m: Message, isService: bool, isSaved: bool, chat: Option<Chat>)
    ensures isService || m.isChannelPost ==> !SenderPhotoRule(m, isService, isSaved, chat)
    ensures !isService && !m.isChannelPost && isSaved && m.forwardInfo.Some? && m.forwardInfo.value.source.Some? ==>
      SenderPhotoRule(m, isService, isSaved, chat) ==
        (!m.forwardInfo.value.source.value.isOutgoing || (!m.isOutgoing && IsGroupChat(chat)))
    ensures !isService && !m.isChannelPost && !isSaved ==>
      SenderPhotoRule(m, isService, isSaved, chat) ==
        (!m.isOutgoing && IsGroupChat(chat))
  {
  }

  /** A message in a private or secret chat has a sender photo only as a saved incoming forward. */
  lemma NoPhotoInPrivateChats(m: Message, isService: bool, isSaved: bool, chat: Chat)
    requires chat.chatType.PrivateChat? || chat.chatType.SecretChat?
    ensures SenderPhotoRule(m, isService, isSaved, Some(chat)) ==>
      !isService && !m.isChannelPost && isSaved && m.forwardInfo.Some? && m.forwardInfo.value.source.Some?
      && !m.forwardInfo.value.source.value.isOutgoing
  {
  }

  /** The content kinds that go to the downloads list. */
  predicate IsDownloadable(content: Content) {
    content.AudioContent? || content.DocumentContent? || content.VideoContent?
  }

  /** What a record compares with in `Equals`. */
  datatype Comparand = MessageValue(value: Message) | Record(record: MessageViewModel) | OtherObject

  // ---------------------------------------------------------------------------
  // The record
  // ---------------------------------------------------------------------------

  /**
   * `MessageViewModel` together with its base `MessageWithOwner`. `isServiceOf` and
   * `isSavedOf` stand for the `IsService()` and `IsSaved(myId)` extensions; `chat` is the
   * chat it was created for, possibly null.
   */
  class MessageViewModel {
    const client: ClientService
    const chat: Option<Chat>
    const isServiceOf: Message -> bool
    const isSavedOf: Message -> bool

    var message: Message
    var text: Option<StyledText>
    var generatedContent: Option<Content>
    var isServiceCache: Option<bool>
    var isSavedCache: Option<bool>
    var canBeSharedCache: Option<bool>
    var hasSenderPhotoCache: Option<bool>

    /** The constructor: with `processText` the display text follows the content's caption. */
    constructor(client: ClientService, chat: Option<Chat>, message: Message, processText: bool,
                isServiceOf: Message -> bool, isSavedOf: Message -> bool)
      ensures this.client == client && this.chat == chat && this.message == message
      ensures this.isServiceOf == isServiceOf && this.isSavedOf == isSavedOf
      ensures text == if processText then DisplayText(Caption(message.content)) else None
      ensures generatedContent.None?
      ensures isServiceCache.None? && isSavedCache.None? && canBeSharedCache.None? && hasSenderPhotoCache.None?
    {
      this.client := client;
      this.chat := chat;
      this.message := message;
      this.isServiceOf := isServiceOf;
      this.isSavedOf := isSavedOf;
      generatedContent := None;
      isServiceCache := None;
      isSavedCache := None;
      canBeSharedCache := None;
      hasSenderPhotoCache := None;
      text := None;
      new;
      if processText {
        SetText(Caption(message.content));
      }
    }

    /** `SetText`: the display text for a caption. */
    method SetText(caption: Option<FormattedText>)
      modifies this`text
      ensures text == DisplayText(caption)
    {
      if caption.Some? && |caption.value.text| > 0 {
        text := Some(StyledText(caption.value));
      } else {
        text := None;
      }
    }

    /** The `Content` setter: replaces the content and recomputes the display text. */
    method SetContent(content: Content)
      modifies this`message, this`text
      ensures message == old(message).(content := content)
      ensures text == DisplayText(Caption(content))
    {
      message := message.(content := content);
      SetText(Caption(content));
    }

    /** The `GeneratedContent` setter: a null value leaves the display text alone. */
    method SetGeneratedContent(value: Option<Content>)
      modifies this`generatedContent, this`text
      ensures generatedContent == value
      ensures value.None? ==> text == old(text)
      ensures value.Some? ==> text == DisplayText(Caption(value.value))
    {
      generatedContent := value;
      if value.Some? {
        SetText(Caption(value.value));
      }
    }

    /** `Replace`: swaps the message object and clears no cache. */
    method Replace(m: Message)
      modifies this`message
      ensures message == m
    {
      message := m;
    }

    /** `Reset`: clears the `IsService` flag only. */
    method Reset()
      modifies this`isServiceCache
      ensures isServiceCache.None?
    {
      isServiceCache := None;
    }

    /** The `IsService` flag: computed once, then returned unchanged until `Reset`. */
    method IsService() returns (r: bool)
      modifies this`isServiceCache
      ensures old(isServiceCache).Some? ==> r == old(isServiceCache).value
      ensures old(isServiceCache).None? ==> r == isServiceOf(message)
      ensures isServiceCache == Some(r)
    {
      if isServiceCache.None? {
        isServiceCache := Some(isServiceOf(message));
      }
      r := isServiceCache.value;
    }

    /** The `IsSaved` flag: computed once, then returned unchanged until `UpdateWith`. */
    method IsSaved() returns (r: bool)
      modifies this`isSavedCache
      ensures old(isSavedCache).Some? ==> r == old(isSavedCache).value
      ensures old(isSavedCache).None? ==> r == isSavedOf(message)
      ensures isSavedCache == Some(r)
    {
      if isSavedCache.None? {
        isSavedCache := Some(isSavedOf(message));
      }
      r := isSavedCache.value;
    }

    /**
     * The `CanBeShared` flag: computed once by the share table. Working it out reads the
     * `IsSaved` flag, and so fills that cache, only when scheduling and `CanBeSaved` pass.
     */
    method CanBeShared() returns (r: bool)
      modifies this`canBeSharedCache, this`isSavedCache
      ensures old(canBeSharedCache).Some? ==>
        r == old(canBeSharedCache).value && isSavedCache == old(isSavedCache)
      ensures old(canBeSharedCache).None? && !ShareReachesSaved(message) ==>
        !r && isSavedCache == old(isSavedCache)
      ensures old(canBeSharedCache).None? && ShareReachesSaved(message) ==>
        var saved := if old(isSavedCache).Some? then old(isSavedCache).value else isSavedOf(message);
        r == ShareRule(message, saved, chat, client) && isSavedCache == Some(saved)
      ensures canBeSharedCache == Some(r)
    {
      if canBeSharedCache.None? {
        var shared: bool;
        if message.schedulingState.Some? || !message.canBeSaved {
          shared := false;
        } else {
          var saved := IsSaved();
          shared := ShareRule(message, saved, chat, client);
        }
        canBeSharedCache := Some(shared);
      }
      r := canBeSharedCache.value;
    }

    /**
     * The `HasSenderPhoto` flag: computed once by the sender photo table, which always
     * reads the `IsService` flag and reads `IsSaved` unless it stops earlier.
     */
    method HasSenderPhoto() returns (r: bool)
      modifies this`hasSenderPhotoCache, this`isServiceCache, this`isSavedCache
      ensures old(hasSenderPhotoCache).Some? ==>
        (r == old(hasSenderPhotoCache).value
         && isServiceCache == old(isServiceCache) && isSavedCache == old(isSavedCache))
      ensures old(hasSenderPhotoCache).None? ==>
        var service := if old(isServiceCache).Some? then old(isServiceCache).value else isServiceOf(message);
        var saved := if old(isSavedCache).Some? then old(isSavedCache).value else isSavedOf(message);
        && isServiceCache == Some(service)
        && r == SenderPhotoRule(message, service, saved, chat)
        && (if service || message.isChannelPost then isSavedCache == old(isSavedCache) else isSavedCache == Some(saved))
      ensures hasSenderPhotoCache == Some(r)
    {
      if hasSenderPhotoCache.None? {
        var photo: bool;
        var service := IsService();
        if service {
          photo := false;
        } else if message.isChannelPost {
          photo := false;
        } else {
          var saved := IsSaved();
          photo := SenderPhotoRule(message, service, saved, chat);
        }
        hasSenderPhotoCache := Some(photo);
      }
      r := hasSenderPhotoCache.value;
    }

    /**
     * `UpdateWith(message)`: copies the incoming metadata field by field, leaves content
     * and date, clears the `IsSaved` flag only, and for an album derives its caption and
     * the record's text from the children.
     */
    method UpdateWith(from: Message)
      modifies this`message, this`text, this`isSavedCache
      ensures Merge(message, text) == Merged(old(message), old(text), from)
      ensures isSavedCache.None?
    {
      message := message.(
        authorSignature := from.authorSignature,
        canBeDeletedForAllUsers := from.canBeDeletedForAllUsers,
        canBeDeletedOnlyForSelf := from.canBeDeletedOnlyForSelf,
        canBeEdited := from.canBeEdited,
        canBeSaved := from.canBeSaved,
        canBeForwarded := from.canBeForwarded,
        canGetMessageThread := from.canGetMessageThread,
        canGetStatistics := from.canGetStatistics,
        canBeRepliedInAnotherChat := from.canBeRepliedInAnotherChat,
        canGetViewers := from.canGetViewers,
        canGetReadDate := from.canGetReadDate,
        chatId := from.chatId,
        containsUnreadMention := from.containsUnreadMention,
        editDate := from.editDate,
        forwardInfo := from.forwardInfo,
        id := from.id,
        isChannelPost := from.isChannelPost,
        isOutgoing := from.isOutgoing,
        isPinned := from.isPinned,
        messageThreadId := from.messageThreadId,
        mediaAlbumId := from.mediaAlbumId,
        replyMarkup := from.replyMarkup,
        replyTo := from.replyTo,
        senderId := from.senderId,
        sendingState := from.sendingState,
        selfDestructType := from.selfDestructType,
        selfDestructIn := from.selfDestructIn,
        autoDeleteIn := from.autoDeleteIn,
        viaBotUserId := from.viaBotUserId,
        interactionInfo := from.interactionInfo,
        unreadReactions := from.unreadReactions,
        restrictionReason := from.restrictionReason,
        savedMessagesTopicId := from.savedMessagesTopicId,
        importInfo := from.importInfo,
        isTopicMessage := from.isTopicMessage,
        hasTimestampedMedia := from.hasTimestampedMedia,
        canReportReactions := from.canReportReactions,
        canGetMediaTimestampLinks := from.canGetMediaTimestampLinks,
        canGetAddedReactions := from.canGetAddedReactions,
        schedulingState := from.schedulingState);

      isSavedCache := None;

      if message.content.Album? {
        var album := message.content;
        var caption: Option<FormattedText> := None;
        var albumText: Option<StyledText> := None;
        if album.isMedia {
          caption, albumText := AggregateMediaCaption(album.children);
        } else if |album.children| > 0 {
          caption := album.children[|album.children| - 1].caption;
          albumText := album.children[|album.children| - 1].text;
        }
        message := message.(content := album.(albumCaption := caption.GetOr(FormattedText(""))));
        text := albumText;
      }
    }

    /** `Equals`: a message or another record with the same (ChatId, Id); nothing else. */
    function Equals(obj: Comparand): (r: bool)
      reads this, if obj.Record? then {obj.record} else {}
      ensures obj.OtherObject? ==> !r
      ensures obj.MessageValue? ==> (r <==> message.id == obj.value.id && message.chatId == obj.value.chatId)
      ensures obj.Record? ==> (r <==> message.id == obj.record.message.id && message.chatId == obj.record.message.chatId)
    {
      match obj
      case MessageValue(y) => message.id == y.id && message.chatId == y.chatId
      case Record(ym) => message.id == ym.message.id && message.chatId == ym.message.chatId
      case OtherObject => false
    }

    /** `GetHashCode`: `HashCode.Combine(ChatId, Id)`, the combining function given. */
    function HashCode(combine: (int, int) -> int): (h: int)
      reads this
      ensures h == combine(message.chatId, message.id)
    {
      combine(message.chatId, message.id)
    }

    /**
     * The `CanBeAddedToDownloads` override: `None` is the null dereference when the record
     * has no chat and the message can be saved.
     */
    function CanBeAddedToDownloads(): (r: Option<bool>)
      reads this
      ensures r.None? <==> message.canBeSaved && chat.None?
      ensures r == Some(true) <==>
        message.canBeSaved && chat.Some? && !chat.value.hasProtectedContent && IsDownloadable(message.content)
    {
      if !message.canBeSaved then Some(false)
      else if chat.None? then None
      else Some(!chat.value.hasProtectedContent && IsDownloadable(message.content))
    }

    /** The base `MessageWithOwner.CanBeAddedToDownloads`: the chat is looked up by id. */
    function OwnerCanBeAddedToDownloads(): (r: bool)
      reads this
      ensures r <==> (message.chatId in client.chats && message.canBeSaved
                      && !client.chats[message.chatId].hasProtectedContent && IsDownloadable(message.content))
    {
      match client.GetChat(message.chatId)
      case Some(c) => message.canBeSaved && !c.hasProtectedContent && IsDownloadable(message.content)
      case None => false
    }
  }

  /** Records that are equal have equal hash codes, whatever the combining function. */
  lemma EqualRecordsEqualHashes(a: MessageViewModel, b: MessageViewModel, combine: (int, int) -> int)
    requires a.Equals(Record(b))
    ensures a.HashCode(combine) == b.HashCode(combine)
  {
  }

  /** Record equality is symmetric, and a record equals its own message. */
  lemma EqualsSymmetric(a: MessageViewModel, b: MessageViewModel)
    ensures a.Equals(Record(b)) <==> b.Equals(Record(a))
    ensures a.Equals(MessageValue(a.message))
  {
  }

  /** When the record has its chat, the override and the base rule agree for that chat. */
  lemma DownloadsAgree(r: MessageViewModel)
    requires r.chat.Some? && r.client.GetChat(r.message.chatId) == r.chat
    ensures r.CanBeAddedToDownloads() == Some(r.OwnerCanBeAddedToDownloads())
  {
  }
}
