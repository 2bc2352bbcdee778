/**
 * The TDLib objects the navigation rules and the message record read, as immutable
 * snapshots, and the part of the client service's caches they consult.
 */
module TdApi {
  import opened Wrappers

  datatype ChatType =
    | PrivateChat(userId: int)
    | BasicGroupChat(basicGroupId: int)
    | SupergroupChat(supergroupId: int, isChannel: bool)
    | SecretChat(secretChatId: int, userId: int)

  datatype Chat = Chat(id: int, chatType: ChatType, hasProtectedContent: bool)

  datatype UserType = RegularUser | BotUser | DeletedUser | UnknownUser

  datatype User = User(id: int, userType: UserType, restrictionReason: string)

  datatype MemberStatus = Creator | Administrator | Member | Restricted | Left | Banned

  /** `isPublic` stands for the `IsPublic()` extension (the group has an active username). */
  datatype Supergroup = Supergroup(id: int, status: MemberStatus, isPublic: bool, restrictionReason: string)

  datatype MessageSender = SenderUser(userId: int) | SenderChat(chatId: int)

  /**
   * What the client service knows when a rule is evaluated: the account's own id and the
   * anti-spam bot's id from its options, and its user, supergroup and chat caches.
   * `accessibleChats` are the chats `IsChatAccessible` answers true for, and
   * `privateChats` maps a user id to the chat `TryGetChatFromUser` finds.
   */
  datatype ClientService = ClientService(
    myId: int,
    antiSpamBotUserId: int,
    users: map<int, User>,
    supergroups: map<int, Supergroup>,
    chats: map<int, Chat>,
    privateChats: map<int, Chat>,
    accessibleChats: set<int>)
  {
    /** `GetUser(id)`: null when the user is not cached. */
    function GetUser(userId: int): (r: Option<User>)
      ensures r.Some? <==> userId in users
      ensures r.Some? ==> r.value == users[userId]
    {
      if userId in users then Some(users[userId]) else None
    }

    /** `GetSupergroup(id)`: null when the supergroup is not cached. */
    function GetSupergroup(supergroupId: int): (r: Option<Supergroup>)
      ensures r.Some? <==> supergroupId in supergroups
      ensures r.Some? ==> r.value == supergroups[supergroupId]
    {
      if supergroupId in supergroups then Some(supergroups[supergroupId]) else None
    }

    /** `TryGetChat(id, out chat)`. */
    function GetChat(chatId: int): (r: Option<Chat>)
      ensures r.Some? <==> chatId in chats
      ensures r.Some? ==> r.value == chats[chatId]
    {
      if chatId in chats then Some(chats[chatId]) else None
    }

    predicate IsBot(userId: int) {
      userId in users && users[userId].userType == BotUser
    }
  }
}
