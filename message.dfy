/** pycordia/models/message.py: a Discord message and the small records it
    carries, and the JSON bodies `Message.send` and `Message.edit` post. */
module MessageModel {
  import opened Py
  import opened Json
  import UserModel
  import GuildModel
  import ChannelModel

  // ---------------------------------------------------------------------
  // MessageActivity

  /** The values of `MessageActivity.ActivityTypes`: 1, 2, 3 and 5. */
  predicate IsActivityType(n: int) {
    1 <= n <= 3 || n == 5
  }

  type ActivityType = n: int | IsActivityType(n) witness 1

  datatype MessageActivity = MessageActivity(activityType: Option<ActivityType>, partyId: Json)

  /** `MessageActivity(data)`: no activity type when `type` is absent or None,
      otherwise the enum lookup, which rejects every other value. */
  function ActivityFromJson(data: Json): (r: Result<MessageActivity>)
    ensures r.Ok? <==> (data.JObj? && (var t := FieldOr(data.fields, "type", JNull);
                                        t == JNull || (IntValue(t).Some? && IsActivityType(IntValue(t).value))))
    ensures r.Ok? && !HasKey(data.fields, "type") ==> r.value.activityType.None?
    ensures r.Ok? && r.value.activityType.Some? ==> IntValue(Lookup(data.fields, "type").value) == Some(r.value.activityType.value)
  {
    var rawType :- GetOpt(data, "type");
    var fs := data.fields;
    var kind :- if rawType == JNull then Ok(None) else
      (match IntValue(rawType)
       case Some(n) => if IsActivityType(n) then Ok(Some(n as ActivityType)) else Err(ValueError("is not a valid ActivityTypes"))
       case None => Err(ValueError("is not a valid ActivityTypes")));
    Ok(MessageActivity(kind, FieldOr(fs, "party_id", JNull)))
  }

  /** The activity types that decode are exactly 1, 2, 3 and 5; 4 is not one. */
  lemma ActivityTypeDomain(n: int, fs: Dict<Json>)
    requires Lookup(fs, "type") == Some(JInt(n))
    ensures ActivityFromJson(JObj(fs)).Ok? <==> n in {1, 2, 3, 5}
  {
  }

  // ---------------------------------------------------------------------
  // Application, Reaction, StickerItem, Interaction

  datatype Application = Application(
    appId: Json, name: Json, icon: Json, description: Json, rpcOrigins: Json,
    botPublic: Json, botRequireCodeGrant: Json, termsOfServiceUrl: Json,
    privacyPolicyUrl: Json, owner: UserModel.User, coverImageHash: Json, flags: Json)

  /** `Application(data)`; the owner is `User(data.get("owner", {}))`, so an
      application without an owner has a User whose fields are all None. */
  function ApplicationFromJson(data: Json): (r: Result<Application>)
    ensures r.Ok? <==> (data.JObj? && UserModel.FromJson(FieldOr(data.fields, "owner", JObj([]))).Ok?)
  {
    var id :- GetOpt(data, "id");
    var fs := data.fields;
    var owner :- UserModel.FromJson(FieldOr(fs, "owner", JObj([])));
    Ok(Application(id, FieldOr(fs, "name", JNull), FieldOr(fs, "icon", JNull),
      FieldOr(fs, "description", JNull), FieldOr(fs, "rpc_origins", JArr([])),
      FieldOr(fs, "bot_public", JNull), FieldOr(fs, "bot_require", JNull),
      FieldOr(fs, "terms_of_service_url", JNull), FieldOr(fs, "privacy_policy_url", JNull),
      owner, FieldOr(fs, "cover_image", JNull), FieldOr(fs, "flags", JNull)))
  }

  datatype Reaction = Reaction(count: Json, wasMe: Json, emoji: GuildModel.Emoji)

  /** `Reaction(data)`; the emoji is `Emoji(data.get("emoji", {}))`. */
  function ReactionFromJson(data: Json): (r: Result<Reaction>)
    ensures r.Ok? ==> data.JObj?
    ensures data.JObj? && !HasKey(data.fields, "emoji") ==> r.Ok? && r.value.emoji.user.None?
  {
    var count :- GetOpt(data, "count");
    var fs := data.fields;
    var emoji :- GuildModel.EmojiFromJson(FieldOr(fs, "emoji", JObj([])));
    Ok(Reaction(count, FieldOr(fs, "me", JNull), emoji))
  }

  datatype StickerItem = StickerItem(stickerId: Json, name: Json, formatType: Json)

  function StickerFromJson(data: Json): (r: Result<StickerItem>)
    ensures r.Ok? <==> data.JObj?
  {
    var id :- GetOpt(data, "id");
    Ok(StickerItem(id, FieldOr(data.fields, "name", JNull), FieldOr(data.fields, "type", JNull)))
  }

  datatype Interaction = Interaction(interactionId: Json, interactionType: Json, name: Json, user: UserModel.User)

  function InteractionFromJson(data: Json): (r: Result<Interaction>)
    ensures r.Ok? <==> (data.JObj? && UserModel.FromJson(FieldOr(data.fields, "user", JObj([]))).Ok?)
  {
    var id :- GetOpt(data, "id");
    var fs := data.fields;
    var user :- UserModel.FromJson(FieldOr(fs, "user", JObj([])));
    Ok(Interaction(id, FieldOr(fs, "type", JNull), FieldOr(fs, "name", JNull), user))
  }

  // ---------------------------------------------------------------------
  // Attachment

  datatype Attachment = Attachment(
    attachmentId: Json, filename: Json, contentType: Json, size: Json,
    url: Json, proxyUrl: Json, height: Json, width: Json)

  const AttachmentKeys: seq<string> := ["id", "filename", "content_type", "size", "url",
    "proxy_url", "height", "width"]

  function AttachmentFields(a: Attachment): seq<Json> {
    [a.attachmentId, a.filename, a.contentType, a.size, a.url, a.proxyUrl, a.height, a.width]
  }

  function AttachmentFromJson(data: Json): (r: Result<Attachment>)
    ensures r.Ok? <==> data.JObj?
  {
    var id :- GetOpt(data, "id");
    var fs := data.fields;
    Ok(Attachment(id, FieldOr(fs, "filename", JNull), FieldOr(fs, "content_type", JNull),
      FieldOr(fs, "size", JNull), FieldOr(fs, "url", JNull), FieldOr(fs, "proxy_url", JNull),
      FieldOr(fs, "height", JNull), FieldOr(fs, "width", JNull)))
  }

  /** `attachment.to_dict()`: the eight keys in order, each with its attribute. */
  function AttachmentToDict(a: Attachment): (d: Json)
    ensures d.JObj? && Keys(d.fields) == AttachmentKeys
    ensures forall i :: 0 <= i < 8 ==> Lookup(d.fields, AttachmentKeys[i]) == Some(AttachmentFields(a)[i])
  {
    var fs := [("id", a.attachmentId), ("filename", a.filename), ("content_type", a.contentType),
      ("size", a.size), ("url", a.url), ("proxy_url", a.proxyUrl), ("height", a.height),
      ("width", a.width)];
    KeysDisplay(fs, AttachmentKeys);
    forall i | 0 <= i < 8 ensures Lookup(fs, AttachmentKeys[i]) == Some(AttachmentFields(a)[i]) {
      LookupFirst(fs, i, AttachmentKeys[i]);
    }
    JObj(fs)
  }

  /** Reading an attachment back from its own dict gives the same attachment. */
  lemma AttachmentRoundTrip(a: Attachment)
    ensures AttachmentFromJson(AttachmentToDict(a)) == Ok(a)
  {
    var fs := AttachmentToDict(a).fields;
    assert Lookup(fs, AttachmentKeys[0]) == Some(a.attachmentId);
    assert Lookup(fs, AttachmentKeys[1]) == Some(a.filename);
    assert Lookup(fs, AttachmentKeys[2]) == Some(a.contentType);
    assert Lookup(fs, AttachmentKeys[3]) == Some(a.size);
    assert Lookup(fs, AttachmentKeys[4]) == Some(a.url);
    assert Lookup(fs, AttachmentKeys[5]) == Some(a.proxyUrl);
    assert Lookup(fs, AttachmentKeys[6]) == Some(a.height);
    assert Lookup(fs, AttachmentKeys[7]) == Some(a.width);
  }

  /** `Attachment(d).to_dict()` holds, under each of the eight keys, `d[key]`,
      or None when `d` lacks it. */
  lemma AttachmentDictFromPayload(fs: Dict<Json>, i: nat)
    requires i < 8
    ensures AttachmentFromJson(JObj(fs)).Ok?
    ensures Lookup(AttachmentToDict(AttachmentFromJson(JObj(fs)).value).fields, AttachmentKeys[i])
      == Some(FieldOr(fs, AttachmentKeys[i], JNull))
  {
  }

  // ---------------------------------------------------------------------
  // MessageReference

  datatype MessageReference = MessageReference(
    messageId: Json, channelId: Json, guildId: Json, failIfNotExists: Json, msgData: Json)

  /** `MessageReference(ref_data, msg_data)`: the four attributes come from a
      truthy `ref_data`; a falsy one leaves all four None. */
  function ReferenceFromJson(refData: Json, msgData: Json): (r: Result<MessageReference>)
    ensures !Truthy(refData) ==> (r.Ok? && r.value.messageId == JNull && r.value.channelId == JNull
                                  && r.value.guildId == JNull && r.value.failIfNotExists == JNull)
    ensures Truthy(refData) ==> (r.Ok? <==> refData.JObj?)
    ensures r.Ok? && Truthy(refData) ==> r.value.messageId == FieldOr(refData.fields, "message_id", JNull)
  {
    if Truthy(refData) then
      var messageId :- GetOpt(refData, "message_id");
      var fs := refData.fields;
      Ok(MessageReference(messageId, FieldOr(fs, "channel_id", JNull), FieldOr(fs, "guild_id", JNull),
        FieldOr(fs, "fail_if_not_exists", JNull), msgData))
    else
      Ok(MessageReference(JNull, JNull, JNull, JNull, msgData))
  }

  const ReferenceKeys: seq<string> := ["message_id", "channel_id", "guild_id", "fail_if_not_exists"]

  /** `reference.to_dict()`: the four attributes under their payload keys. */
  function ReferenceToDict(m: MessageReference): (d: Json)
    ensures d.JObj? && Keys(d.fields) == ReferenceKeys
    ensures Lookup(d.fields, "message_id") == Some(m.messageId)
    ensures Lookup(d.fields, "channel_id") == Some(m.channelId)
    ensures Lookup(d.fields, "guild_id") == Some(m.guildId)
    ensures Lookup(d.fields, "fail_if_not_exists") == Some(m.failIfNotExists)
  {
    var fs := [("message_id", m.messageId), ("channel_id", m.channelId), ("guild_id", m.guildId),
      ("fail_if_not_exists", m.failIfNotExists)];
    KeysDisplay(fs, ReferenceKeys);
    LookupFirst(fs, 1, "channel_id");
    LookupFirst(fs, 2, "guild_id");
    LookupFirst(fs, 3, "fail_if_not_exists");
    JObj(fs)
  }

  /** `reference == other` */
  predicate ReferenceEq(a: MessageReference, b: MessageReference) {
    a.messageId == b.messageId
  }

  /** A reference read from a dict and written back by `to_dict` gives the
      same four values, and references compare by message id alone. */
  lemma ReferenceRoundTrip(fs: Dict<Json>, msgData: Json)
    requires fs != []
    ensures ReferenceFromJson(JObj(fs), msgData).Ok?
    ensures var d := ReferenceToDict(ReferenceFromJson(JObj(fs), msgData).value);
      forall k :: k in ReferenceKeys ==> Lookup(d.fields, k) == Some(FieldOr(fs, k, JNull))
    ensures ReferenceEq(ReferenceFromJson(JObj(fs), msgData).value,
                        ReferenceFromJson(JObj([("message_id", FieldOr(fs, "message_id", JNull))]), JNull).value)
  {
    var single := [("message_id", FieldOr(fs, "message_id", JNull))];
    LookupFirst(single, 0, "message_id");
  }

  /** With an empty `ref_data` the reference's dict is four Nones. */
  lemma EmptyReference(empty: Dict<Json>, msgData: Json)
    requires empty == []
    ensures ReferenceFromJson(JObj(empty), msgData).Ok?
    ensures var d := ReferenceToDict(ReferenceFromJson(JObj(empty), msgData).value);
      forall k :: k in ReferenceKeys ==> Lookup(d.fields, k) == Some(JNull)
  {
  }

  // ---------------------------------------------------------------------
  // Message

  datatype Message = Message(
    messageId: Json, channelId: Json, guildId: Json, author: UserModel.User,
    member: GuildModel.Member, content: Json, timestamp: Json, editedTimestamp: Json,
    tts: Json, mentionEveryone: Json, mentions: seq<UserModel.User>,
    mentionRoles: seq<GuildModel.Role>, mentionChannels: seq<ChannelModel.ChannelMention>,
    attachments: Json, embeds: Json, reactions: Json, nonce: Json, pinned: Json,
    webhookId: Json, messageType: Json, activity: MessageActivity,
    application: Application, applicationId: Json, messageReference: MessageReference,
    interaction: Interaction, stickerItems: seq<StickerItem>)

  /** `x or []` */
  function OrEmptyList(x: Json): (r: Json)
    ensures Truthy(x) ==> r == x
    ensures !Truthy(x) ==> r == JArr([])
  {
    if Truthy(x) then x else JArr([])
  }

  datatype Head = Head(author: UserModel.User, member: GuildModel.Member)

  /** The author and member reads: `User(data.get("author", {}))` and then
      `Member(data.get("member", {}))`, which needs a member payload. */
  function ReadHead(data: Json): (r: Result<Head>)
    ensures r.Ok? <==> (data.JObj? && UserModel.FromJson(FieldOr(data.fields, "author", JObj([]))).Ok?
                        && GuildModel.MemberFromJson(FieldOr(data.fields, "member", JObj([]))).Ok?)
  {
    var rawAuthor :- Get(data, "author", JObj([]));
    var author :- UserModel.FromJson(rawAuthor);
    var member :- GuildModel.MemberFromJson(FieldOr(data.fields, "member", JObj([])));
    Ok(Head(author, member))
  }

  datatype Mentions = Mentions(users: seq<UserModel.User>, roles: seq<GuildModel.Role>,
    channels: seq<ChannelModel.ChannelMention>)

  function ReadMentions(fs: Dict<Json>): (r: Result<Mentions>)
    ensures !HasKey(fs, "mentions") && !HasKey(fs, "mention_roles") && !HasKey(fs, "mention_channels")
      ==> r == Ok(Mentions([], [], []))
  {
    var users :- MapIter(FieldOr(fs, "mentions", JArr([])), UserModel.FromJson);
    var roles :- MapIter(FieldOr(fs, "mention_roles", JArr([])), GuildModel.RoleFromJson);
    var channels :- MapIter(FieldOr(fs, "mention_channels", JArr([])), ChannelModel.MentionFromJson);
    Ok(Mentions(users, roles, channels))
  }

  datatype Parts = Parts(activity: MessageActivity, application: Application,
    reference: MessageReference, interaction: Interaction, stickers: seq<StickerItem>)

  function ReadParts(fs: Dict<Json>): Result<Parts> {
    var activity :- ActivityFromJson(FieldOr(fs, "activity", JObj([])));
    var application :- ApplicationFromJson(FieldOr(fs, "application", JObj([])));
    var reference :- ReferenceFromJson(FieldOr(fs, "message_reference", JObj([])),
      FieldOr(fs, "referenced_message", JObj([])));
    var interaction :- InteractionFromJson(FieldOr(fs, "interaction", JObj([])));
    var stickers :- MapIter(FieldOr(fs, "sticker_items", JArr([])), StickerFromJson);
    Ok(Parts(activity, application, reference, interaction, stickers))
  }

  /** `Message(data)`, attribute by attribute in the constructor's order. */
  function MessageFromJson(data: Json): (r: Result<Message>)
    ensures r.Ok? ==> data.JObj? && ReadHead(data).Ok?
    ensures r.Ok? ==> ((Truthy(r.value.attachments) || r.value.attachments == JArr([]))
                       && (Truthy(r.value.embeds) || r.value.embeds == JArr([]))
                       && (Truthy(r.value.reactions) || r.value.reactions == JArr([])))
    ensures r.Ok? && !Truthy(FieldOr(data.fields, "embeds", JNull)) ==> r.value.embeds == JArr([])
    ensures r.Ok? && !Truthy(FieldOr(data.fields, "attachments", JNull)) ==> r.value.attachments == JArr([])
    ensures r.Ok? && !Truthy(FieldOr(data.fields, "reactions", JNull)) ==> r.value.reactions == JArr([])
  {
    var id :- GetOpt(data, "id");
    var fs := data.fields;
    var head :- ReadHead(data);
    var mentions :- ReadMentions(fs);
    var parts :- ReadParts(fs);
    Ok(Message(id, FieldOr(fs, "channel_id", JNull), FieldOr(fs, "guild_id", JNull), head.author,
      head.member, FieldOr(fs, "content", JNull), FieldOr(fs, "timestamp", JNull),
      FieldOr(fs, "edited_timestamp", JNull), FieldOr(fs, "tts", JNull),
      FieldOr(fs, "mention_everyone", JNull), mentions.users, mentions.roles, mentions.channels,
      OrEmptyList(FieldOr(fs, "attachments", JNull)), OrEmptyList(FieldOr(fs, "embeds", JNull)),
      OrEmptyList(FieldOr(fs, "reactions", JNull)), FieldOr(fs, "nonce", JNull),
      FieldOr(fs, "pinned", JNull), FieldOr(fs, "webhook_id", JNull), FieldOr(fs, "type", JNull),
      parts.activity, parts.application, FieldOr(fs, "application_id", JNull), parts.reference,
      parts.interaction, parts.stickers))
  }

  /** A message payload without a member (a direct message, say) cannot be
      read: `Member({})` raises KeyError('joined_at'). */
  lemma MessageNeedsMember(fs: Dict<Json>)
    requires !HasKey(fs, "member")
    requires UserModel.FromJson(FieldOr(fs, "author", JObj([]))).Ok?
    ensures MessageFromJson(JObj(fs)) == Err(KeyError("joined_at"))
  {
    HeadNeedsMember(fs);
  }

  lemma HeadNeedsMember(fs: Dict<Json>)
    requires !HasKey(fs, "member")
    requires UserModel.FromJson(FieldOr(fs, "author", JObj([]))).Ok?
    ensures ReadHead(JObj(fs)) == Err(KeyError("joined_at"))
  {
    var empty: Dict<Json> := [];
    GuildModel.EmptyMemberFails(empty);
    assert FieldOr(fs, "member", JObj([])) == JObj(empty);
    assert Get(JObj(fs), "author", JObj([])) == Ok(FieldOr(fs, "author", JObj([])));
    assert GuildModel.MemberFromJson(FieldOr(fs, "member", JObj([]))) == Err(KeyError("joined_at"));
  }

  /** `reference.message` is `Message(msg_data or {})`; with no referenced
      message it is `Message({})`, which raises. */
  function ReferencedMessage(m: MessageReference): Result<Message> {
    MessageFromJson(if Truthy(m.msgData) then m.msgData else JObj([]))
  }

  lemma ReferencedMessageNeedsData(m: MessageReference)
    requires !Truthy(m.msgData)
    ensures ReferencedMessage(m) == Err(KeyError("joined_at"))
  {
    var empty: Dict<Json> := [];
    assert JObj([]) == JObj(empty);
    MessageNeedsMember(empty);
  }

  // ---------------------------------------------------------------------
  // Request bodies of send and edit. Embed objects are passed in as the
  // dicts their `to_dict()` gives.

  /** `embeds or []`, then `to_dict()` of each. */
  function EmbedList(embeds: Option<seq<Json>>): seq<Json> {
    if embeds.Some? then embeds.value else []
  }

  /** The JSON body `Message.send` posts. */
  function SendPayload(content: Json, embeds: Option<seq<Json>>, allowedMentions: Json, allowTts: Json): (d: Json)
    ensures d.JObj? && Keys(d.fields) == ["content", "tts", "allowed_mentions", "embeds"]
    ensures Lookup(d.fields, "content") == Some(if Truthy(content) then content else JStr(""))
    ensures Lookup(d.fields, "tts") == Some(allowTts)
    ensures Lookup(d.fields, "allowed_mentions") == Some(allowedMentions)
    ensures embeds.None? ==> Lookup(d.fields, "embeds") == Some(JArr([]))
  {
    var fs := [("content", if Truthy(content) then content else JStr("")), ("tts", allowTts),
      ("allowed_mentions", allowedMentions), ("embeds", JArr(EmbedList(embeds)))];
    KeysDisplay(fs, ["content", "tts", "allowed_mentions", "embeds"]);
    LookupFirst(fs, 1, "tts");
    LookupFirst(fs, 2, "allowed_mentions");
    LookupFirst(fs, 3, "embeds");
    JObj(fs)
  }

  /** `send` with its defaults (content "", no embeds, `{}` mentions, no
      text-to-speech) posts an empty text with tts False. */
  lemma DefaultSend(empty: Dict<Json>)
    requires empty == []
    ensures var d := SendPayload(JStr(""), None, JObj(empty), JBool(false));
      Lookup(d.fields, "content") == Some(JStr("")) && Lookup(d.fields, "tts") == Some(JBool(false))
      && Lookup(d.fields, "embeds") == Some(JArr([]))
  {
  }

  /** The JSON body `Message.edit` posts: a falsy content falls back to the
      message's own; falsy embeds fall back to iterating the message's
      `embeds`. Iterating a value that is not a list, dict or text raises
      TypeError; the message's embeds are payload dicts with no `to_dict`,
      so a fallback to a message that has some raises AttributeError. */
  function EditPayload(m: Message, content: Json, embeds: Option<seq<Json>>, allowedMentions: Json): (r: Result<Json>)
    ensures r.Ok? <==> (EmbedList(embeds) != [] || (Iterate(m.embeds).Ok? && !Truthy(m.embeds)))
    ensures EmbedList(embeds) == [] && Iterate(m.embeds).Err? ==> r.Err? && r.error.TypeError?
    ensures EmbedList(embeds) == [] && Iterate(m.embeds).Ok? && Truthy(m.embeds) ==> r.Err? && r.error.AttributeError?
    ensures r.Ok? ==> r.value.JObj? && Keys(r.value.fields) == ["content", "embeds", "allowed_mentions"]
    ensures r.Ok? ==> Lookup(r.value.fields, "content") == Some(if Truthy(content) then content else m.content)
    ensures r.Ok? ==> Lookup(r.value.fields, "embeds") == Some(JArr(EmbedList(embeds)))
  {
    var rendered :- if EmbedList(embeds) != [] then Ok(EmbedList(embeds))
      else
        var previous :- Iterate(m.embeds);
        if previous != [] then Err(AttributeError("'dict' object has no attribute 'to_dict'"))
        else Ok([]);
    var fs := [("content", if Truthy(content) then content else m.content), ("embeds", JArr(rendered)),
      ("allowed_mentions", allowedMentions)];
    KeysDisplay(fs, ["content", "embeds", "allowed_mentions"]);
    LookupFirst(fs, 1, "embeds");
    Ok(JObj(fs))
  }
}
