/**
 * Chat navigation of `TLNavigationService`: the decision tree of
 * `NavigateToChat(Chat, ...)` as a pure function over a snapshot of the frame and the
 * client's caches, the service state it changes (the navigation state bag, the
 * forward stack, the pending drag-and-drop packages and the calls it makes into the
 * frame and the chat view model), and the routing of `NavigateToChat(long, ...)`,
 * `NavigateToUser` and `NavigateToSender`.
 */
module Navigation {
  import opened Wrappers
  import opened TdApi

  // ---------------------------------------------------------------------------
  // Pages, requests and decisions
  // ---------------------------------------------------------------------------

  datatype PageKind = ChatPage | ChatThreadPage | ChatSavedPage | ChatScheduledPage | ProfilePage | OtherPage

  /** A navigation parameter: a bare chat id, or `ChatNavigationArgs` for a thread or a saved topic. */
  datatype PageParam =
    | NoParam
    | ChatIdParam(chatId: int)
    | ThreadArgs(threadChatId: int, threadId: int)
    | TopicArgs(topicChatId: int, topic: int)
    | OtherParam

  datatype Page = Page(kind: PageKind, param: PageParam)

  /**
   * What the frame shows: the current page (its type and parameter) and whether, when it
   * is a chat page, that page has a view model.
   */
  datatype View = View(current: Page, hasViewModel: bool)

  /** The optional arguments of `NavigateToChat(Chat, ...)`; a saved topic is its id. */
  datatype Request = Request(
    message: Option<int>,
    thread: Option<int>,
    topic: Option<int>,
    accessToken: Option<string>,
    scheduled: bool,
    force: bool,
    createNewWindow: bool,
    clearBackStack: bool)

  /** The defaults of `NavigateToChat(chat)`: note that `force` defaults to true. */
  const DefaultRequest := Request(None, None, None, None, false, true, false, false)

  /** Why a navigation was refused; each shows a message box and nothing else. */
  datatype Refusal = RestrictionNotice(reason: string) | AntiSpamInfo | PrivateChannel

  /** Which slice the shown chat reloads. */
  datatype Anchor = AroundMessage(messageId: int) | LastSlice

  datatype Transition = NoTransition | SlideFromRight | SlideFromLeft | Suppress

  datatype Decision =
    | Ignore                                        // returns without any effect
    | OpenProfile(profileChatId: int)               // the own chat shown as a profile
    | Refuse(refusal: Refusal)                      // message box only
    | Refresh(anchor: Anchor)                       // the shown chat page reloads in place
    | OpenWindow(window: Page)                      // a new window on the target page
    | Retarget(retargetChatId: int)                 // the shown chat page instance is reused
    | NullViewModel                                 // the shown chat page has no view model: null dereference
    | NavigateTo(target: Page, transition: Transition)

  // ---------------------------------------------------------------------------
  // The decision tree
  // ---------------------------------------------------------------------------

  /**
   * The access checks of `NavigateToChat` by chat type: `Some` stops the navigation
   * with that decision, `None` lets it continue to the page logic.
   */
  function Gate(chat: Chat, req: Request, client: ClientService, savedViewAsChats: bool): (r: Option<Decision>)
    ensures r.Some? ==> r.value.Ignore? || r.value.OpenProfile? || r.value.Refuse?
    ensures r == Some(Ignore) <==>
      || (chat.chatType.PrivateChat? && chat.chatType.userId !in client.users)
      || (chat.chatType.SupergroupChat? && chat.chatType.supergroupId !in client.supergroups)
    ensures !chat.chatType.PrivateChat? && !chat.chatType.SupergroupChat? ==> r.None?
  {
    match chat.chatType
    case PrivateChat(userId) =>
      var found := client.GetUser(userId);
      if found.None? then Some(Ignore)
      else
        var user := found.value;
        if user.id == client.myId && req.topic.None? && savedViewAsChats then Some(OpenProfile(chat.id))
        else if |user.restrictionReason| > 0 then Some(Refuse(RestrictionNotice(user.restrictionReason)))
        else if user.id == client.antiSpamBotUserId then Some(Refuse(AntiSpamInfo))
        else None
    case SupergroupChat(supergroupId, _) =>
      var found := client.GetSupergroup(supergroupId);
      if found.None? then Some(Ignore)
      else
        var supergroup := found.value;
        if supergroup.status == Left && !supergroup.isPublic && chat.id !in client.accessibleChats then Some(Refuse(PrivateChannel))
        else if |supergroup.restrictionReason| > 0 then Some(Refuse(RestrictionNotice(supergroup.restrictionReason)))
        else None
    case _ => None
  }

  /** The frame already shows this chat in its plain chat page (`force` is not consulted). */
  predicate ShowsChat(chatId: int, req: Request, view: View) {
    && view.current.kind == ChatPage
    && view.hasViewModel
    && view.current.param == ChatIdParam(chatId)
    && req.thread.None? && req.topic.None? && !req.scheduled && !req.createNewWindow
  }

  /** The page a chat opens on: a thread, else a saved topic, else the scheduled view, else the chat. */
  function TargetPage(chatId: int, req: Request): (p: Page)
    ensures p.kind == ChatThreadPage <==> req.thread.Some?
    ensures p.kind == ChatSavedPage <==> req.thread.None? && req.topic.Some?
    ensures p.kind == ChatScheduledPage <==> req.thread.None? && req.topic.None? && req.scheduled
    ensures p.kind == ChatPage <==> req.thread.None? && req.topic.None? && !req.scheduled
    ensures req.thread.Some? ==> p.param == ThreadArgs(chatId, req.thread.value)
    ensures req.thread.None? && req.topic.Some? ==> p.param == TopicArgs(chatId, req.topic.value)
    ensures req.thread.None? && req.topic.None? ==> p.param == ChatIdParam(chatId)
  {
    if req.thread.Some? then Page(ChatThreadPage, ThreadArgs(chatId, req.thread.value))
    else if req.topic.Some? then Page(ChatSavedPage, TopicArgs(chatId, req.topic.value))
    else if req.scheduled then Page(ChatScheduledPage, ChatIdParam(chatId))
    else Page(ChatPage, ChatIdParam(chatId))
  }

  /** The transition the in-frame navigation passes to `Navigate`. */
  function TransitionFor(chatId: int, req: Request, current: Page): (t: Transition)
    ensures t == SlideFromRight ==> current == Page(ChatPage, ChatIdParam(chatId)) && (req.thread.Some? || req.topic.Some?)
    ensures t == SlideFromLeft ==> current == Page(ProfilePage, ChatIdParam(chatId)) && req.thread.None? && req.topic.None?
    ensures t == Suppress ==> req.thread.Some? || req.topic.Some?
  {
    if req.thread.Some? || req.topic.Some? then
      if current == Page(ChatPage, ChatIdParam(chatId)) then SlideFromRight else Suppress
    else if req.scheduled then NoTransition
    else if current == Page(ProfilePage, ChatIdParam(chatId)) then SlideFromLeft
    else NoTransition
  }

  /** The page logic once the access checks let the navigation through. */
  function PageDecision(chatId: int, req: Request, view: View): (d: Decision)
    ensures d.Refresh? || d.OpenWindow? || d.Retarget? || d.NullViewModel? || d.NavigateTo?
    ensures d.Retarget? ==> d.retargetChatId == chatId && view.hasViewModel && !req.force
    ensures d.NullViewModel? ==> view.current.kind == ChatPage && !view.hasViewModel && !req.force
    ensures req.force && !ShowsChat(chatId, req, view) ==> d.OpenWindow? || d.NavigateTo?
  {
    if ShowsChat(chatId, req, view) then
      Refresh(if req.message.Some? then AroundMessage(req.message.value) else LastSlice)
    else if req.createNewWindow then OpenWindow(TargetPage(chatId, req))
    else if view.current.kind == ChatPage && req.thread.None? && req.topic.None? && !req.scheduled && !req.force then
      if view.hasViewModel then Retarget(chatId) else NullViewModel
    else NavigateTo(TargetPage(chatId, req), TransitionFor(chatId, req, view.current))
  }

  /** `NavigateToChat(Chat chat, ...)`: what a request leads to. */
  function Resolve(chat: Option<Chat>, req: Request, client: ClientService, savedViewAsChats: bool, view: View): (d: Decision)
    ensures chat.None? ==> d == Ignore
    ensures d.OpenProfile? ==> chat.Some? && d.profileChatId == chat.value.id
    ensures d.Refresh? || d.OpenWindow? || d.Retarget? || d.NullViewModel? || d.NavigateTo? ==> chat.Some? && Gate(chat.value, req, client, savedViewAsChats).None?
  {
    if chat.None? then Ignore
    else
      match Gate(chat.value, req, client, savedViewAsChats)
      case Some(stop) => stop
      case None => PageDecision(chat.value.id, req, view)
  }

  /**
   * A navigation that went through the access checks and is not an in-place refresh
   * writes the navigation state bag; with a null view model the write has already
   * happened when the dereference throws.
   */
  predicate WritesState(d: Decision) {
    d.OpenWindow? || d.Retarget? || d.NullViewModel? || d.NavigateTo?
  }

  // ---------------------------------------------------------------------------
  // Properties of the decision tree
  // ---------------------------------------------------------------------------

  /** Nothing happens for a missing chat, an unknown private user or an unknown supergroup, and only then. */
  lemma IgnoredExactly(chat: Option<Chat>, req: Request, client: ClientService, saved: bool, view: View)
    ensures Resolve(chat, req, client, saved, view) == Ignore <==>
      || chat.None?
      || (chat.value.chatType.PrivateChat? && chat.value.chatType.userId !in client.users)
      || (chat.value.chatType.SupergroupChat? && chat.value.chatType.supergroupId !in client.supergroups)
  {
  }

  /**
   * The own private chat without a topic opens as a profile when saved messages are viewed
   * as chats, whatever the user's restriction or the rest of the request says; nothing else does.
   */
  lemma SelfChatOpensProfile(chat: Chat, req: Request, client: ClientService, saved: bool, view: View)
    ensures Resolve(Some(chat), req, client, saved, view) == OpenProfile(chat.id) <==>
      && chat.chatType.PrivateChat?
      && chat.chatType.userId in client.users
      && client.users[chat.chatType.userId].id == client.myId
      && req.topic.None?
      && saved
  {
  }

  /** A restricted private user is refused with the restriction text, before the anti-spam check. */
  lemma RestrictedUserRefused(chat: Chat, req: Request, client: ClientService, saved: bool, view: View)
    requires chat.chatType.PrivateChat? && chat.chatType.userId in client.users
    requires !(client.users[chat.chatType.userId].id == client.myId && req.topic.None? && saved)
    ensures var user := client.users[chat.chatType.userId];
      |user.restrictionReason| > 0 ==> Resolve(Some(chat), req, client, saved, view) == Refuse(RestrictionNotice(user.restrictionReason))
    ensures var user := client.users[chat.chatType.userId];
      Resolve(Some(chat), req, client, saved, view) == Refuse(AntiSpamInfo) <==>
        |user.restrictionReason| == 0 && user.id == client.antiSpamBotUserId
  {
  }

  /**
   * A supergroup is refused as private exactly when it was left, is not public and is not
   * accessible; otherwise a non-empty restriction reason refuses it with that text.
   */
  lemma SupergroupRefusals(chat: Chat, req: Request, client: ClientService, saved: bool, view: View)
    requires chat.chatType.SupergroupChat? && chat.chatType.supergroupId in client.supergroups
    ensures var sg := client.supergroups[chat.chatType.supergroupId];
      Resolve(Some(chat), req, client, saved, view) == Refuse(PrivateChannel) <==>
        sg.status == Left && !sg.isPublic && chat.id !in client.accessibleChats
    ensures var sg := client.supergroups[chat.chatType.supergroupId];
      !(sg.status == Left && !sg.isPublic && chat.id !in client.accessibleChats) && |sg.restrictionReason| > 0 ==>
        Resolve(Some(chat), req, client, saved, view) == Refuse(RestrictionNotice(sg.restrictionReason))
  {
  }

  /** A refused navigation never reaches the page logic: no page is refreshed or navigated. */
  lemma RefusalNavigatesNowhere(chat: Option<Chat>, req: Request, client: ClientService, saved: bool, view: View)
    requires chat.Some? && Gate(chat.value, req, client, saved).Some?
    ensures var d := Resolve(chat, req, client, saved, view);
      d.Ignore? || d.OpenProfile? || d.Refuse?
    ensures !WritesState(Resolve(chat, req, client, saved, view))
  {
  }

  /**
   * Once the access checks pass, the shown chat is refreshed in place exactly when the
   * frame shows it in a chat page with a view model and the request names no thread,
   * topic, scheduled view or new window; the slice is around the message when one is given.
   */
  lemma RefreshExactly(chat: Chat, req: Request, client: ClientService, saved: bool, view: View)
    requires Gate(chat, req, client, saved).None?
    ensures Resolve(Some(chat), req, client, saved, view).Refresh? <==>
      && view.current == Page(ChatPage, ChatIdParam(chat.id))
      && view.hasViewModel
      && req.thread.None? && req.topic.None? && !req.scheduled && !req.createNewWindow
    ensures Resolve(Some(chat), req, client, saved, view).Refresh? ==>
      Resolve(Some(chat), req, client, saved, view).anchor ==
        (if req.message.Some? then AroundMessage(req.message.value) else LastSlice)
  {
  }

  /** The reuse check does not consult `force`: forcing never prevents an in-place refresh. */
  lemma RefreshIgnoresForce(chat: Option<Chat>, req: Request, client: ClientService, saved: bool, view: View)
    ensures Resolve(chat, req, client, saved, view).Refresh? ==>
      Resolve(chat, req.(force := !req.force), client, saved, view) == Resolve(chat, req, client, saved, view)
  {
  }

  /** The target page precedence, in both the new-window and the in-frame branch. */
  lemma TargetPrecedence(chat: Chat, req: Request, client: ClientService, saved: bool, view: View)
    ensures var d := Resolve(Some(chat), req, client, saved, view);
      (d.OpenWindow? ==> d.window == TargetPage(chat.id, req)) &&
      (d.NavigateTo? ==> d.target == TargetPage(chat.id, req))
    ensures var p := TargetPage(chat.id, req);
      && (req.thread.Some? ==> p.kind == ChatThreadPage)
      && (req.thread.None? && req.topic.Some? ==> p.kind == ChatSavedPage)
      && (req.thread.None? && req.topic.None? && req.scheduled ==> p.kind == ChatScheduledPage)
      && (req.thread.None? && req.topic.None? && !req.scheduled ==> p == Page(ChatPage, ChatIdParam(chat.id)))
  {
  }

  /**
   * Transitions: a thread or topic slides in from the right exactly when the current page
   * is the same chat's chat page and is suppressed otherwise; the scheduled view has none;
   * the chat page slides in from the left exactly when coming from the same chat's profile.
   */
  lemma TransitionRules(chatId: int, req: Request, current: Page)
    ensures req.thread.Some? || req.topic.Some? ==>
      (TransitionFor(chatId, req, current) == SlideFromRight <==> current == Page(ChatPage, ChatIdParam(chatId))) &&
      (TransitionFor(chatId, req, current) != SlideFromRight ==> TransitionFor(chatId, req, current) == Suppress)
    ensures req.thread.None? && req.topic.None? && req.scheduled ==> TransitionFor(chatId, req, current) == NoTransition
    ensures req.thread.None? && req.topic.None? && !req.scheduled ==>
      (TransitionFor(chatId, req, current) == SlideFromLeft <==> current == Page(ProfilePage, ChatIdParam(chatId))) &&
      TransitionFor(chatId, req, current) in {SlideFromLeft, NoTransition}
  {
  }

  /**
   * The shown chat page instance is re-targeted exactly when a chat page with a view model
   * is shown (but is not refreshed), no thread, topic, scheduled view or new window is
   * asked for and `force` is off.
   */
  lemma RetargetExactly(chat: Chat, req: Request, client: ClientService, saved: bool, view: View)
    requires Gate(chat, req, client, saved).None?
    ensures Resolve(Some(chat), req, client, saved, view).Retarget? <==>
      && !ShowsChat(chat.id, req, view)
      && view.current.kind == ChatPage && view.hasViewModel
      && req.thread.None? && req.topic.None? && !req.scheduled && !req.createNewWindow && !req.force
    ensures Resolve(Some(chat), req, client, saved, view).Retarget? ==>
      Resolve(Some(chat), req, client, saved, view).retargetChatId == chat.id
  {
  }

  /**
   * Where a re-target would happen but the shown chat page has no view model, the
   * navigation reaches the dereference of that null view model, and only there.
   */
  lemma NullViewModelExactly(chat: Chat, req: Request, client: ClientService, saved: bool, view: View)
    requires Gate(chat, req, client, saved).None?
    ensures Resolve(Some(chat), req, client, saved, view).NullViewModel? <==>
      && view.current.kind == ChatPage && !view.hasViewModel
      && req.thread.None? && req.topic.None? && !req.scheduled && !req.createNewWindow && !req.force
  {
  }

  /** With the default request (`force` on) a chat page instance is never re-targeted, nor its view model read. */
  lemma DefaultRequestNeverRetargets(chat: Option<Chat>, client: ClientService, saved: bool, view: View)
    ensures !Resolve(chat, DefaultRequest, client, saved, view).Retarget?
    ensures !Resolve(chat, DefaultRequest, client, saved, view).NullViewModel?
  {
  }

  // ---------------------------------------------------------------------------
  // The navigation service and its state
  // ---------------------------------------------------------------------------

  /** An opaque drag-and-drop payload (`DataPackageView`). */
  datatype Package = Package(handle: int)

  datatype StateValue =
    | MessageIdValue(messageId: int)
    | AccessTokenValue(token: string)
    | PackageValue(package: Package)
    | OtherValue(handle: int)

  /** `NavigationState`: the bag of values handed to the page being navigated to. */
  class NavigationState {
    var entries: map<string, StateValue>

    constructor ()
      ensures entries == map[]
    {
      entries := map[];
    }

    method Set(key: string, value: StateValue)
      modifies this
      ensures entries == old(entries)[key := value]
    {
      entries := entries[key := value];
    }

    /** `TryGet<DataPackageView>("package", out ...)`: present and of the package type. */
    function PendingPackage(): (r: Option<Package>)
      reads this
      ensures r.Some? <==> "package" in entries && entries["package"].PackageValue?
      ensures r.Some? ==> entries["package"] == PackageValue(r.value)
    {
      if "package" in entries && entries["package"].PackageValue? then Some(entries["package"].package) else None
    }
  }

  /** The entries a navigation adds to the state bag: the message id and the access token, when given. */
  function WithRequestEntries(entries: map<string, StateValue>, req: Request): (r: map<string, StateValue>)
    ensures "message_id" in r <==> req.message.Some? || "message_id" in entries
    ensures req.message.Some? ==> r["message_id"] == MessageIdValue(req.message.value)
    ensures "access_token" in r <==> req.accessToken.Some? || "access_token" in entries
    ensures req.accessToken.Some? ==> r["access_token"] == AccessTokenValue(req.accessToken.value)
    ensures forall k :: k in entries && !(k == "message_id" && req.message.Some?) && !(k == "access_token" && req.accessToken.Some?) ==>
      k in r && r[k] == entries[k]
    ensures forall k :: k in r && k != "message_id" && k != "access_token" ==> k in entries
    ensures req.message.None? && req.accessToken.None? ==> r == entries
  {
    var withMessage := if req.message.Some? then entries["message_id" := MessageIdValue(req.message.value)] else entries;
    if req.accessToken.Some? then withMessage["access_token" := AccessTokenValue(req.accessToken.value)] else withMessage
  }

  /**
   * The state bag a chat navigation hands to the page: the caller's, or a new one, with
   * the message to highlight and the web app access token stored in it.
   */
  method StoreRequest(state: NavigationState?, req: Request) returns (bag: NavigationState)
    modifies state
    ensures state != null ==> bag == state
    ensures state == null ==> fresh(bag)
    ensures bag.entries == WithRequestEntries(if state != null then old(state.entries) else map[], req)
  {
    if state == null {
      bag := new NavigationState();
    } else {
      bag := state;
    }
    if req.message.Some? {
      bag.Set("message_id", MessageIdValue(req.message.value));
    }
    if req.accessToken.Some? {
      bag.Set("access_token", AccessTokenValue(req.accessToken.value));
    }
  }

  /** A call the service makes into code outside this model, in the order made. */
  datatype Call =
    | ShowMessage(refusal: Refusal)           // MessagePopup.ShowAsync
    | LoadSlice(sliceChatId: int, anchor: Anchor)  // LoadMessageSliceAsync / LoadLastSliceAsync
    | SetAccessToken(token: string)           // the view model's AccessToken and the user info refresh
    | HandlePackage(package: Package)         // HandlePackageAsync
    | OpenAsync(window: Page)                 // a new window
    | NavigatedTo(navigatedChatId: int)       // NavigatedToAsync and RaiseNavigated on the reused page
    | Navigate(target: Page, transition: Transition)
    | GoBackAt(index: int)                    // GoBackAt(0, false)

  /** The calls the in-place refresh makes after loading, with the package it consumes. */
  function RefreshCalls(chatId: int, req: Request, userFullKnown: bool,
                        packages: map<int, Package>, statePackage: Option<Package>): (r: seq<Call>)
    ensures |r| <= 2
    ensures (|r| > 0 && r[0].SetAccessToken?) <==> req.accessToken.Some? && userFullKnown
    ensures (|r| > 0 && r[|r| - 1].HandlePackage?) <==> chatId in packages || statePackage.Some?
    ensures chatId in packages ==> r[|r| - 1] == HandlePackage(packages[chatId])
    ensures chatId !in packages && statePackage.Some? ==> r[|r| - 1] == HandlePackage(statePackage.value)
  {
    (if req.accessToken.Some? && userFullKnown then [SetAccessToken(req.accessToken.value)] else [])
    + (if chatId in packages then [HandlePackage(packages[chatId])]
       else if statePackage.Some? then [HandlePackage(statePackage.value)]
       else [])
  }

  class NavigationService {
    /** `CurrentPageType` / `CurrentPageParam`, which is also what `Frame.Content` shows. */
    var current: Page
    var forwardStack: seq<Page>
    /** `App.DataPackages`: at most one pending package per chat, consumed once. */
    var dataPackages: map<int, Package>
    var calls: seq<Call>

    constructor (current: Page)
      ensures this.current == current && forwardStack == [] && dataPackages == map[] && calls == []
    {
      this.current := current;
      forwardStack := [];
      dataPackages := map[];
      calls := [];
    }

    /** `Navigate(target, parameter, state, info)`, whose success is `accepted`. */
    method Navigate(target: Page, transition: Transition, accepted: bool)
      modifies this`current, this`calls
      ensures calls == old(calls) + [Call.Navigate(target, transition)]
      ensures current == if accepted then target else old(current)
    {
      calls := calls + [Call.Navigate(target, transition)];
      if accepted {
        current := target;
      }
    }

    /**
     * The in-place refresh (lines 219-254): load the slice, and unless the page's view
     * model was replaced meanwhile, hand over the access token and the pending package,
     * preferring the one `App.DataPackages` holds for the chat over the state bag's.
     */
    method RefreshShownChat(chatId: int, anchor: Anchor, req: Request, statePackage: Option<Package>,
                            viewModelReplaced: bool, userFullKnown: bool)
      modifies this`calls, this`dataPackages
      ensures viewModelReplaced ==> calls == old(calls) + [LoadSlice(chatId, anchor)] && dataPackages == old(dataPackages)
      ensures !viewModelReplaced ==>
        calls == old(calls) + [LoadSlice(chatId, anchor)] + RefreshCalls(chatId, req, userFullKnown, old(dataPackages), statePackage)
      ensures !viewModelReplaced && chatId in old(dataPackages) ==> dataPackages == old(dataPackages) - {chatId}
      ensures !viewModelReplaced && chatId !in old(dataPackages) ==> dataPackages == old(dataPackages)
    {
      calls := calls + [LoadSlice(chatId, anchor)];
      if !viewModelReplaced {
        calls := calls + RefreshCalls(chatId, req, userFullKnown, dataPackages, statePackage);
        if chatId in dataPackages {
          dataPackages := dataPackages - {chatId};
        }
      }
    }

    /**
     * The page change of a navigation past the reuse check (lines 285-403): a new window,
     * the shown chat page re-targeted (forward stack cleared), the null dereference of a
     * missing view model (nothing changes), or `Navigate`; the back
     * stack is cut with `GoBackAt(0)` only when asked, and after `Navigate` only if it succeeded.
     */
    method ChangePage(d: Decision, req: Request, accepted: bool)
      requires WritesState(d)
      modifies this`current, this`forwardStack, this`calls
      ensures d.OpenWindow? ==> calls == old(calls) + [OpenAsync(d.window)]
                                && current == old(current) && forwardStack == old(forwardStack)
      ensures d.Retarget? ==> calls == old(calls) + [NavigatedTo(d.retargetChatId)] + (if req.clearBackStack then [GoBackAt(0)] else [])
                              && current == Page(ChatPage, ChatIdParam(d.retargetChatId)) && forwardStack == []
      ensures d.NullViewModel? ==> calls == old(calls) && current == old(current) && forwardStack == old(forwardStack)
      ensures d.NavigateTo? ==> calls == old(calls) + [Call.Navigate(d.target, d.transition)]
                                                  + (if accepted && req.clearBackStack then [GoBackAt(0)] else [])
                                && current == (if accepted then d.target else old(current))
                                && forwardStack == old(forwardStack)
    {
      match d
      case OpenWindow(window) =>
        calls := calls + [OpenAsync(window)];
      case Retarget(chatId) =>
        calls := calls + [NavigatedTo(chatId)];
        current := Page(ChatPage, ChatIdParam(chatId));
        forwardStack := [];
        if req.clearBackStack {
          calls := calls + [GoBackAt(0)];
        }
      case NullViewModel =>
      case NavigateTo(target, transition) =>
        Navigate(target, transition, accepted);
        if accepted && req.clearBackStack {
          calls := calls + [GoBackAt(0)];
        }
    }

    /**
     * `NavigateToChat(Chat chat, ...)`. The outcomes of code outside this model are
     * parameters: `hasViewModel` (the shown chat page has a view model), `accepted`
     * (what `Navigate` returns), `viewModelReplaced` (the page's view model changed while
     * the slice loaded) and `userFullKnown` (the chat's user and full user info are cached).
     * It returns the state bag handed to the new page, null when none was.
     */
    method NavigateToChat(chat: Option<Chat>, req: Request, state: NavigationState?,
                          client: ClientService, savedViewAsChats: bool, hasViewModel: bool,
                          accepted: bool, viewModelReplaced: bool, userFullKnown: bool)
      returns (bag: NavigationState?)
      modifies this, state
      ensures var d := Resolve(chat, req, client, savedViewAsChats, View(old(current), hasViewModel));
        && (!WritesState(d) ==> bag == null && (state != null ==> state.entries == old(state.entries)))
        && (WritesState(d) ==> bag != null && (state != null ==> bag == state) && (state == null ==> fresh(bag)))
        && (WritesState(d) ==> bag.entries == WithRequestEntries(if state != null then old(state.entries) else map[], req))
      ensures var d := Resolve(chat, req, client, savedViewAsChats, View(old(current), hasViewModel));
        && (d.Ignore? ==> calls == old(calls) && current == old(current))
        && (d.Refuse? ==> calls == old(calls) + [ShowMessage(d.refusal)] && current == old(current))
        && (d.OpenProfile? ==> calls == old(calls) + [Call.Navigate(Page(ProfilePage, ChatIdParam(d.profileChatId)), NoTransition)]
                               && current == (if accepted then Page(ProfilePage, ChatIdParam(d.profileChatId)) else old(current)))
        && (d.Refresh? ==> current == old(current))
        && (d.Refresh? && viewModelReplaced ==> calls == old(calls) + [LoadSlice(chat.value.id, d.anchor)])
        && (d.Refresh? && !viewModelReplaced ==>
              calls == old(calls) + [LoadSlice(chat.value.id, d.anchor)]
                + RefreshCalls(chat.value.id, req, userFullKnown, old(dataPackages),
                               if state != null then old(state.PendingPackage()) else None))
        && (d.OpenWindow? ==> calls == old(calls) + [OpenAsync(d.window)] && current == old(current))
        && (d.Retarget? ==> calls == old(calls) + [NavigatedTo(d.retargetChatId)] + (if req.clearBackStack then [GoBackAt(0)] else [])
                            && current == Page(ChatPage, ChatIdParam(d.retargetChatId)))
        && (d.NullViewModel? ==> calls == old(calls) && current == old(current))
        && (d.NavigateTo? ==> calls == old(calls) + [Call.Navigate(d.target, d.transition)]
                                                + (if accepted && req.clearBackStack then [GoBackAt(0)] else [])
                              && current == (if accepted then d.target else old(current)))
      ensures var d := Resolve(chat, req, client, savedViewAsChats, View(old(current), hasViewModel));
        && (d.Refresh? && !viewModelReplaced && chat.value.id in old(dataPackages) ==>
              dataPackages == old(dataPackages) - {chat.value.id})
        && (!(d.Refresh? && !viewModelReplaced && chat.value.id in old(dataPackages)) ==> dataPackages == old(dataPackages))
        && (d.Retarget? ==> forwardStack == [])
        && (!d.Retarget? ==> forwardStack == old(forwardStack))
    {
      var d := Resolve(chat, req, client, savedViewAsChats, View(current, hasViewModel));
      bag := null;
      if d.Refuse? {
        calls := calls + [ShowMessage(d.refusal)];
      } else if d.OpenProfile? {
        Navigate(Page(ProfilePage, ChatIdParam(d.profileChatId)), NoTransition, accepted);
      } else if d.Refresh? {
        var statePackage := if state != null then state.PendingPackage() else None;
        RefreshShownChat(chat.value.id, d.anchor, req, statePackage, viewModelReplaced, userFullKnown);
      } else if WritesState(d) {
        bag := StoreRequest(state, req);
        ChangePage(d, req, accepted);
      }
    }
  }

  // ---------------------------------------------------------------------------
  // Routing into NavigateToChat
  // ---------------------------------------------------------------------------

  /** Where a routing helper sends the user. */
  datatype Route = NoRoute | ChatRoute(chat: Chat, req: Request) | ProfileRoute(profileChatId: int)

  /**
   * `NavigateToChat(long chatId, ...)`: the cached chat, else the chat a `GetChat` request
   * returns (`fetched`); the request is forwarded without `clearBackStack`.
   */
  function RouteToChatId(chatId: int, req: Request, client: ClientService, fetched: Option<Chat>): (r: Route)
    ensures !r.ProfileRoute?
    ensures r.NoRoute? <==> chatId !in client.chats && fetched.None?
    ensures chatId in client.chats ==> r == ChatRoute(client.chats[chatId], req.(clearBackStack := false))
    ensures r.ChatRoute? ==> !r.req.clearBackStack
  {
    var chat := if client.GetChat(chatId).Some? then client.GetChat(chatId) else fetched;
    if chat.None? then NoRoute else ChatRoute(chat.value, req.(clearBackStack := false))
  }

  /**
   * `NavigateToUser(userId, toChat)`: the user's private chat (found, else the one
   * `CreatePrivateChat` returns as `created`) opens as a chat for a bot or when `toChat`
   * is set, and as a profile otherwise.
   */
  function RouteToUser(userId: int, toChat: bool, client: ClientService, created: Option<Chat>): (r: Route)
    ensures r.NoRoute? <==> userId !in client.privateChats && created.None?
    ensures r.ChatRoute? ==> r.req == DefaultRequest && (client.IsBot(userId) || toChat)
    ensures r.ProfileRoute? ==> !client.IsBot(userId) && !toChat
    ensures userId in client.privateChats && (client.IsBot(userId) || toChat) ==>
      r == ChatRoute(client.privateChats[userId], DefaultRequest)
    ensures userId in client.privateChats && !(client.IsBot(userId) || toChat) ==>
      r == ProfileRoute(client.privateChats[userId].id)
  {
    var chat := if userId in client.privateChats then Some(client.privateChats[userId]) else created;
    if chat.None? then NoRoute
    else if client.IsBot(userId) || toChat then ChatRoute(chat.value, DefaultRequest)
    else ProfileRoute(chat.value.id)
  }

  /** `NavigateToSender`: a user goes through `NavigateToUser(id, false)`, a chat opens its profile. */
  function RouteToSender(sender: MessageSender, client: ClientService, created: Option<Chat>): (r: Route)
    ensures sender.SenderChat? ==> r == ProfileRoute(sender.chatId)
    ensures sender.SenderUser? ==> r == RouteToUser(sender.userId, false, client, created)
  {
    match sender
    case SenderUser(userId) => RouteToUser(userId, false, client, created)
    case SenderChat(chatId) => ProfileRoute(chatId)
  }

  /** A non-bot user sender opens as a profile; a bot sender's chat never re-targets the shown page. */
  lemma UserSenderRouting(userId: int, client: ClientService, created: Option<Chat>, saved: bool, view: View)
    requires userId in client.privateChats || created.Some?
    ensures var r := RouteToSender(SenderUser(userId), client, created);
      (!client.IsBot(userId) ==> r.ProfileRoute?) &&
      (client.IsBot(userId) ==> r.ChatRoute? && !Resolve(Some(r.chat), r.req, client, saved, view).Retarget?
                                && !Resolve(Some(r.chat), r.req, client, saved, view).NullViewModel?)
  {
  }
}
