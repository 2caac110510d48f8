/** The chat endpoints and helpers: direct-channel ids, the welcome
    conversation, directory upserts, and the request checks of the
    endpoints that write to the chat service. The service itself is not
    modelled: each call is appended to the effect log, and what a lookup
    would return is a parameter. */
module Chat {
  import opened Values
  import opened Text
  import opened Http

  /** A handler's answer together with the calls it made. */
  datatype Handled = Handled(reply: Reply, effects: seq<Effect>)

  /** `[a, b].sort().join("-")`: defined values in code-unit order, an
      absent one sorted last and joined as the empty string. */
  function ChannelId(a: Option<string>, b: Option<string>): (id: string)
    ensures a.Some? && b.Some? ==> id == a.value + "-" + b.value || id == b.value + "-" + a.value
    ensures a.Some? != b.Some? ==> id == OrEmpty(a) + OrEmpty(b) + "-"
    ensures |id| == |OrEmpty(a)| + 1 + |OrEmpty(b)|
  {
    match (a, b)
    case (Some(x), Some(y)) => if Less(y, x) then y + "-" + x else x + "-" + y
    case (Some(x), None) => x + "-"
    case (None, Some(y)) => y + "-"
    case (None, None) => "-"
  }

  /** The channel id does not depend on which side asks. */
  lemma ChannelIdSymmetric(a: Option<string>, b: Option<string>)
    ensures ChannelId(a, b) == ChannelId(b, a)
  {
    if a.Some? && b.Some? {
      LessTrichotomy(a.value, b.value);
    }
  }

  /** The id is the smaller id, "-", the larger one; so it is never empty. */
  lemma ChannelIdSorted(x: string, y: string)
    ensures var id := ChannelId(Some(x), Some(y));
            (id == x + "-" + y && !Less(y, x)) || (id == y + "-" + x && !Less(x, y))
    ensures ChannelId(Some(x), Some(y))[|if Less(y, x) then y else x|] == '-'
  {
    LessTrichotomy(x, y);
  }

  /** The order is that of UTF-16 code units, not of code points: U+10000
      is two surrogates, which sort before U+FFFF. */
  lemma AstralSortsFirst()
    ensures ChannelId(Some("\U{FFFF}"), Some("\U{10000}")) == "\U{10000}-\U{FFFF}"
  {
    var x, y := "\U{FFFF}", "\U{10000}";
    assert UnitRank(y[0]) < UnitRank(x[0]);
    assert Less(y, x);
  }

  /** Whatever the two ids, the joined id contains the separator. */
  lemma ChannelIdHasSeparator(a: Option<string>, b: Option<string>)
    ensures '-' in ChannelId(a, b)
  {
    var id := ChannelId(a, b);
    match (a, b)
    case (Some(x), Some(y)) =>
      if Less(y, x) { assert id[|y|] == '-'; } else { assert id[|x|] == '-'; }
    case (Some(x), None) => assert id[|x|] == '-';
    case (None, Some(y)) => assert id[|y|] == '-';
    case (None, None) => assert id[0] == '-';
  }

  const WelcomeUser := "first-chat"

  function WelcomeText(userName: Option<string>): string {
    "Welcome to the chat, " + Render(userName) + "! Feel free to start your conversation."
  }

  function IdOnly(id: Option<string>): DirUser {
    DirUser(id, None, None, None)
  }

  /** `sendWelcomeMessage(chatId, userName)`: register the welcome user and
      the new user, open their direct channel, post the greeting. */
  function Welcome(chatId: string, userName: Option<string>): (e: seq<Effect>)
    ensures |e| == 3
    ensures e[0] == UpsertUsers([IdOnly(Some(WelcomeUser)), IdOnly(Some(chatId))])
    ensures e[1].CreateChannel? && e[1].kind == "messaging"
            && e[1].members == [Some(WelcomeUser), Some(chatId)] && e[1].createdBy == Some(WelcomeUser)
    ensures e[2].PostMessage? && e[2].channelId == e[1].channelId && e[2].sender == Some(WelcomeUser)
    ensures e[2].text == Some(WelcomeText(userName))
  {
    var id := ChannelId(Some(WelcomeUser), Some(chatId));
    [UpsertUsers([IdOnly(Some(WelcomeUser)), IdOnly(Some(chatId))]),
     CreateChannel("messaging", id, [Some(WelcomeUser), Some(chatId)], Some(WelcomeUser)),
     PostMessage(id, Some(WelcomeText(userName)), Some(WelcomeUser))]
  }

  /** The welcome channel is the direct channel between the new user and the
      welcome user: a `sendMessage` from either side lands in it. */
  lemma WelcomeIsDirectChannel(chatId: string, userName: Option<string>, text: Option<string>)
    ensures Welcome(chatId, userName)[1].channelId == SendMessage(Some(chatId), Some(WelcomeUser), text).effects[0].channelId
    ensures Welcome(chatId, userName)[1].channelId == SendMessage(Some(WelcomeUser), Some(chatId), text).effects[0].channelId
  {
    ChannelIdSymmetric(Some(WelcomeUser), Some(chatId));
  }

  /** `createUserFunction`: absent or empty fields are sent as "". */
  function CreateUserFunction(userId: Option<string>, name: Option<string>, username: Option<string>,
                              avatar: Option<string>): (e: Effect)
    ensures e.UpsertUsers? && |e.users| == 1 && e.users[0].id == userId
    ensures e.users[0].name == Some(if Truthy(name) then name.value else "")
    ensures e.users[0].username == Some(if Truthy(username) then username.value else "")
    ensures e.users[0].avatar == Some(if Truthy(avatar) then avatar.value else "")
  {
    UpsertUsers([DirUser(userId, Some(OrEmpty(name)), Some(OrEmpty(username)), Some(OrEmpty(avatar)))])
  }

  /** `updateUserFunction`: the values are sent as given. */
  function UpdateUserFunction(id: Option<string>, username: Option<string>, name: Option<string>,
                              avatar: Option<string>): (e: Effect)
    ensures e.UpsertUser? && e.user == DirUser(id, name, username, avatar)
  {
    UpsertUser(DirUser(id, name, username, avatar))
  }

  /** `sendMessage`: post into the direct channel of the two users. */
  function SendMessage(username: Option<string>, targetUser: Option<string>, message: Option<string>): (h: Handled)
    ensures h.reply == Relayed(200)
    ensures h.effects == [PostMessage(ChannelId(username, targetUser), message, username)]
  {
    Handled(Relayed(200), [PostMessage(ChannelId(username, targetUser), message, username)])
  }

  /** `createChat`: register both users and open their direct channel. */
  function CreateChat(username: Option<string>, targetUser: Option<string>): (h: Handled)
    ensures h.reply == Relayed(200) && |h.effects| == 2
    ensures h.effects[0] == UpsertUsers([IdOnly(username), IdOnly(targetUser)])
    ensures h.effects[1].CreateChannel? && h.effects[1].channelId == ChannelId(username, targetUser)
    ensures h.effects[1].members == [username, targetUser] && h.effects[1].createdBy == username
  {
    Handled(Relayed(200),
            [UpsertUsers([IdOnly(username), IdOnly(targetUser)]),
             CreateChannel("messaging", ChannelId(username, targetUser), [username, targetUser], username)])
  }

  /** A message goes into the channel `createChat` opens for the pair,
      whichever of the two sends it, and is posted as its sender. */
  lemma SendMessageIntoOpenedChannel(a: Option<string>, b: Option<string>, m: Option<string>)
    ensures var post := SendMessage(a, b, m).effects[0];
            post.channelId == CreateChat(a, b).effects[1].channelId
            && post.channelId == SendMessage(b, a, m).effects[0].channelId
            && post.sender == a && post.text == m
  {
    ChannelIdSymmetric(a, b);
  }

  /** `updateUserFunction` takes the username before the name, the reverse
      of `createUserFunction`. With every field given it sends the entry the
      create call would; an absent field it sends as absent, where the
      create call sends "". */
  lemma UpdateAgreesWithCreate(id: Option<string>, name: Option<string>, username: Option<string>,
                               avatar: Option<string>)
    ensures Truthy(name) && Truthy(username) && Truthy(avatar) ==>
              UpdateUserFunction(id, username, name, avatar).user == CreateUserFunction(id, name, username, avatar).users[0]
    ensures name.None? ==>
              UpdateUserFunction(id, username, name, avatar).user.name == None
              && CreateUserFunction(id, name, username, avatar).users[0].name == Some("")
  {
  }

  /** Whichever of the two opens the chat, it is the same channel. */
  lemma CreateChatSymmetric(a: Option<string>, b: Option<string>)
    ensures CreateChat(a, b).effects[1].channelId == CreateChat(b, a).effects[1].channelId
  {
    ChannelIdSymmetric(a, b);
  }

  const MissingMessageFields := "Missing required fields: channelId, text, or userId"

  /** `sendMessageToChannel`: one message from `userId` into the pair's
      direct channel, refused with 400 when a required field is missing. */
  function SendMessageToChannel(userId: Option<string>, targetUser: Option<string>, message: Option<string>): (h: Handled)
    ensures h.reply.Failure? <==> !Truthy(message) || !Truthy(userId)
    ensures h.reply.Failure? ==> h.reply.status == 400 && h.effects == []
    ensures !h.reply.Failure? ==>
              |h.effects| == 1 && h.effects[0].PostMessage? && h.effects[0].sender == userId
              && h.effects[0].text == message && h.effects[0].channelId == SendMessage(userId, targetUser, message).effects[0].channelId
  {
    ChannelIdHasSeparator(userId, targetUser);
    var id := ChannelId(userId, targetUser);
    if id == "" || !Truthy(message) || !Truthy(userId) then
      Handled(Failure(400, MissingMessageFields), [])
    else
      Handled(Bare(200), [PostMessage(id, message, userId)])
  }

  /** The channel-id part of the check never fires: the request is refused
      exactly when the message or the sender is missing, and otherwise one
      message is posted to the pair's direct channel. */
  lemma SendMessageToChannelRefusal(userId: Option<string>, targetUser: Option<string>, message: Option<string>)
    ensures var h := SendMessageToChannel(userId, targetUser, message);
            (h.reply == Failure(400, MissingMessageFields) <==> !Truthy(message) || !Truthy(userId))
            && (h.reply.Failure? ==> h.effects == [])
            && (h.reply.Bare? ==> h.effects == [PostMessage(ChannelId(targetUser, userId), message, userId)])
  {
    ChannelIdHasSeparator(userId, targetUser);
    ChannelIdSymmetric(userId, targetUser);
  }

  /** JavaScript truthiness of an arbitrary body field. */
  predicate JsonTruthy(j: Option<Json>) {
    match j
    case None => false
    case Some(JNull) => false
    case Some(JStr(s)) => s != ""
    case Some(JInt(i)) => i != 0
    case Some(JBool(b)) => b
    case Some(_) => true
  }

  /** `addMemberToChannel`. */
  function AddMemberToChannel(channelId: Option<string>, members: Option<Json>): (h: Handled)
    ensures h.reply.Failure? <==> !Truthy(channelId) || !JsonTruthy(members)
    ensures h.reply.Failure? ==> h.reply == Failure(400, "Missing required fields: channelId or members") && h.effects == []
    ensures !h.reply.Failure? ==> h.reply == Bare(200) && h.effects == [AddMembers(channelId.value, members.value)]
  {
    if !Truthy(channelId) || !JsonTruthy(members) then
      Handled(Failure(400, "Missing required fields: channelId or members"), [])
    else
      Handled(Bare(200), [AddMembers(channelId.value, members.value)])
  }

  /** `createUser`. */
  function CreateUser(username: Option<string>, userId: Option<string>, avatar: Option<string>,
                      name: Option<string>): (h: Handled)
    ensures h.reply.Failure? <==> !Truthy(username)
    ensures h.reply.Failure? ==> h.reply == Failure(400, "Missing required field: username") && h.effects == []
    ensures !h.reply.Failure? ==>
              h.reply == Msg(200, true, "User " + username.value + " created/updated successfully")
              && |h.effects| == 1 && h.effects[0].UpsertUsers? && |h.effects[0].users| == 1 && h.effects[0].users[0].id == userId
              && h.effects[0].users[0].username == username
  {
    if !Truthy(username) then Handled(Failure(400, "Missing required field: username"), [])
    else
      Handled(Msg(200, true, "User " + username.value + " created/updated successfully"),
              [CreateUserFunction(userId, name, username, avatar)])
  }

  /** `updateUserController`; `existing` is what the directory holds for
      `userId`, if anything. */
  function UpdateUserController(userId: Option<string>, name: Option<string>, username: Option<string>,
                                avatar: Option<string>, existing: Option<DirUser>): (h: Handled)
    ensures !Truthy(userId) ==> h == Handled(Failure(400, "Missing required field: userId"), [])
    ensures Truthy(userId) && existing.None? ==> h == Handled(Failure(404, "User not found in Stream Chat."), [])
    ensures Truthy(userId) && existing.Some? ==>
              h.reply == Msg(200, true, "User " + userId.value + " updated successfully")
              && |h.effects| == 1 && h.effects[0].UpsertUser? && h.effects[0].user.id == userId
  {
    if !Truthy(userId) then Handled(Failure(400, "Missing required field: userId"), [])
    else if existing.None? then Handled(Failure(404, "User not found in Stream Chat."), [])
    else
      var known := existing.value;
      Handled(Msg(200, true, "User " + userId.value + " updated successfully"),
              [UpdateUserFunction(userId, OrElse(username, known.username), OrElse(name, known.name),
                                  OrElse(avatar, known.avatar))])
  }

  /** Each field the request leaves out or empty keeps the directory's
      value; each supplied one replaces it. */
  lemma UpdateUserKeepsExisting(userId: string, name: Option<string>, username: Option<string>,
                                avatar: Option<string>, existing: DirUser)
    requires userId != ""
    ensures var u := UpdateUserController(Some(userId), name, username, avatar, Some(existing)).effects[0].user;
            (u.name == if Truthy(name) then name else existing.name)
            && (u.username == if Truthy(username) then username else existing.username)
            && (u.avatar == if Truthy(avatar) then avatar else existing.avatar)
            && (!Truthy(name) && !Truthy(username) && !Truthy(avatar) ==> u == existing.(id := Some(userId)))
  {
  }
}
