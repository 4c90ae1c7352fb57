/** pycordia/models/guild.py: roles, emojis and members of a guild, the
    guild enums, and the guild built from its payload. */
module GuildModel {
  import opened Py
  import opened Json
  import UserModel
  import ChannelModel

  // ---------------------------------------------------------------------
  // Roles

  datatype RoleTags = RoleTags(botId: Json, integrationId: Json, premiumSubscriber: Json)

  /** `RoleTags(data)`: three optional keys. */
  function RoleTagsFromJson(data: Json): (r: Result<RoleTags>)
    ensures r.Ok? <==> data.JObj?
  {
    var botId :- GetOpt(data, "bot_id");
    var fs := data.fields;
    Ok(RoleTags(botId, FieldOr(fs, "integration_id", JNull), FieldOr(fs, "premium_subscriber", JNull)))
  }

  datatype Role = Role(
    roleId: Json, roleName: Json, color: Json, colour: Json, hoist: Json,
    position: Json, permissions: Json, managed: Json, mentionable: Json,
    tags: seq<RoleTags>)

  /** `Role(data)`: every attribute optional, `colour` a second name for
      `color`, one `RoleTags` per entry of `tags` (none when absent). */
  function RoleFromJson(data: Json): (r: Result<Role>)
    ensures r.Ok? ==> (data.JObj? && r.value.colour == r.value.color
                       && r.value.roleId == FieldOr(data.fields, "id", JNull)
                       && r.value.color == FieldOr(data.fields, "color", JNull))
    ensures data.JObj? && !HasKey(data.fields, "tags") ==> r.Ok? && r.value.tags == []
  {
    var id :- GetOpt(data, "id");
    var fs := data.fields;
    var name := FieldOr(fs, "name", JNull);
    var color := FieldOr(fs, "color", JNull);
    var tags :- MapIter(FieldOr(fs, "tags", JArr([])), RoleTagsFromJson);
    Ok(Role(id, name, color, color, FieldOr(fs, "hoist", JNull), FieldOr(fs, "position", JNull),
      FieldOr(fs, "permissions", JNull), FieldOr(fs, "managed", JNull),
      FieldOr(fs, "mentionable", JNull), tags))
  }

  /** `role == other` */
  predicate RoleEq(a: Role, b: Role) {
    a.roleId == b.roleId
  }

  /** `role > other`: Python evaluates `a.role_id > b.role_id` as `b.role_id < a.role_id`. */
  function RoleGt(a: Role, b: Role): Result<bool> {
    Less(b.roleId, a.roleId)
  }

  /** `role < other` */
  function RoleLt(a: Role, b: Role): Result<bool> {
    Less(a.roleId, b.roleId)
  }

  /** Roles compare by id alone: position, name and colour play no part, and
      `a > b` is `b < a`. */
  lemma RoleOrderByIdOnly(a: Role, b: Role, p: Json, n: Json)
    ensures RoleGt(a, b) == RoleLt(b, a)
    ensures RoleGt(a.(position := p, roleName := n), b) == RoleGt(a, b)
    ensures RoleLt(a.(position := p, roleName := n), b) == RoleLt(a, b)
    ensures RoleEq(a.(position := p, roleName := n), b) == RoleEq(a, b)
  {
  }

  /** Between two text ids exactly one of `<`, `==`, `>` holds. */
  lemma RoleTrichotomy(a: Role, b: Role)
    requires a.roleId.JStr? && b.roleId.JStr?
    ensures RoleLt(a, b).Ok? && RoleGt(a, b).Ok?
    ensures RoleEq(a, b) ==> !RoleLt(a, b).value && !RoleGt(a, b).value
    ensures !RoleEq(a, b) ==> RoleLt(a, b).value != RoleGt(a, b).value
  {
    if RoleEq(a, b) {
      TextLessIrreflexive(a.roleId.s);
    } else {
      TextLessTotal(a.roleId.s, b.roleId.s);
      if TextLess(a.roleId.s, b.roleId.s) {
        TextLessAsymmetric(a.roleId.s, b.roleId.s);
      }
    }
  }

  /** Ids missing on either side make the ordering raise. */
  lemma RoleOrderNeedsIds(a: Role, b: Role)
    requires a.roleId == JNull
    ensures RoleLt(a, b).Err? && RoleGt(a, b).Err? && RoleGt(b, a).Err?
  {
  }

  // ---------------------------------------------------------------------
  // Emojis and members

  datatype Emoji = Emoji(
    emojiId: Json, name: Json, roles: seq<Role>, user: Option<UserModel.User>,
    requiresColons: Json, managed: Json, animated: Json, available: Json)

  /** `make_optional(User, x)` */
  function OptionalUser(x: Json): (r: Result<Option<UserModel.User>>)
    ensures !Truthy(x) ==> r == Ok(None)
    ensures Truthy(x) ==> (r.Ok? <==> x.JObj?)
  {
    MakeOptional(UserModel.FromJson, x)
  }

  /** `Emoji(data)` */
  function EmojiFromJson(data: Json): (r: Result<Emoji>)
    ensures r.Ok? ==> data.JObj?
    ensures r.Ok? && !HasKey(data.fields, "user") ==> r.value.user.None?
    ensures r.Ok? && !HasKey(data.fields, "roles") ==> r.value.roles == []
  {
    var id :- GetOpt(data, "id");
    var fs := data.fields;
    var roles :- MapIter(FieldOr(fs, "roles", JArr([])), RoleFromJson);
    var user :- OptionalUser(FieldOr(fs, "user", JObj([])));
    Ok(Emoji(id, FieldOr(fs, "name", JNull), roles, user, FieldOr(fs, "require_colons", JNull),
      FieldOr(fs, "managed", JNull), FieldOr(fs, "animated", JNull), FieldOr(fs, "available", JNull)))
  }

  datatype Member = Member(
    user: Option<UserModel.User>, nick: Json, guildAvatarHash: Json, roleIds: Json,
    joinedAt: Json, premiumSince: Option<Json>, deaf: Json, mute: Json,
    pending: Json, permissions: Json)

  /** `Member(data)`: `joined_at`, `deaf` and `mute` are required, in that
      order; `user` defaults to `{}` and so to no user, `roles` to `[]`.
      `datetime.fromisoformat` is not modelled: timestamps are kept as given. */
  function MemberFromJson(data: Json): (r: Result<Member>)
    ensures r.Ok? <==> (data.JObj? && HasKey(data.fields, "joined_at")
                        && HasKey(data.fields, "deaf") && HasKey(data.fields, "mute")
                        && OptionalUser(FieldOr(data.fields, "user", JObj([]))).Ok?)
    ensures r.Ok? && !HasKey(data.fields, "roles") ==> r.value.roleIds == JArr([])
    ensures r.Ok? && !HasKey(data.fields, "user") ==> r.value.user.None?
  {
    var userRaw :- Get(data, "user", JObj([]));
    var user :- OptionalUser(userRaw);
    var fs := data.fields;
    var joined :- Subscript(data, "joined_at");
    var premium := ChannelModel.OptionalTimestamp(FieldOr(fs, "premium_since", JNull));
    var deaf :- Subscript(data, "deaf");
    var mute :- Subscript(data, "mute");
    Ok(Member(user, FieldOr(fs, "nick", JNull), FieldOr(fs, "avatar", JNull),
      FieldOr(fs, "roles", JArr([])), joined, premium, deaf, mute,
      FieldOr(fs, "pending", JNull), FieldOr(fs, "permissions", JNull)))
  }

  /** `Member({})` raises KeyError('joined_at'): a member needs a join time. */
  lemma EmptyMemberFails(empty: Dict<Json>)
    requires empty == []
    ensures MemberFromJson(JObj(empty)) == Err(KeyError("joined_at"))
  {
  }

  /** `member == other`. With a user, the source reads `self.user.id`, an
      attribute User does not have (it is `user_id`), so the comparison
      raises; without one the method falls off its end and gives None. */
  function MemberEq(a: Member, b: Member): (r: Result<Option<bool>>)
    ensures r.Ok? <==> a.user.None?
  {
    if a.user.Some? then Err(AttributeError("'User' object has no attribute 'id'"))
    else Ok(None)
  }

  /** Member equality never reports two members equal (nor different). */
  lemma MemberEqNeverDecides(a: Member, b: Member)
    ensures MemberEq(a, b) != Ok(Some(true)) && MemberEq(a, b) != Ok(Some(false))
    ensures MemberEq(a, a) == MemberEq(a, b)
  {
  }

  // ---------------------------------------------------------------------
  // Guild enums: each is the integer range 0..hi, looked up by value

  /** `Enum(value)` for an enum whose values are 0..hi. */
  function DecodeRange(j: Json, hi: nat, enumName: string): (r: Result<int>)
    ensures r.Ok? <==> IntValue(j).Some? && 0 <= IntValue(j).value <= hi
    ensures r.Ok? ==> r.value == IntValue(j).value
    ensures r.Err? ==> r.error.ValueError?
  {
    match IntValue(j)
    case Some(n) => if 0 <= n <= hi then Ok(n) else Err(ValueError("is not a valid " + enumName))
    case None => Err(ValueError("is not a valid " + enumName))
  }

  const VerificationHi := 4
  const NotificationHi := 1
  const ContentFilterHi := 2
  const NsfwHi := 3
  const MfaHi := 1
  const PremiumTierHi := 3

  /** The six enum domains, written out value by value. */
  lemma EnumDomains(n: int)
    ensures DecodeRange(JInt(n), VerificationHi, "GuildVerificationLevel").Ok? <==> n in {0, 1, 2, 3, 4}
    ensures DecodeRange(JInt(n), NotificationHi, "GuildNotificationLevel").Ok? <==> n in {0, 1}
    ensures DecodeRange(JInt(n), ContentFilterHi, "GuildExplicitContentFilter").Ok? <==> n in {0, 1, 2}
    ensures DecodeRange(JInt(n), NsfwHi, "GuildNSFWLevel").Ok? <==> n in {0, 1, 2, 3}
    ensures DecodeRange(JInt(n), MfaHi, "GuildMFALevel").Ok? <==> n in {0, 1}
    ensures DecodeRange(JInt(n), PremiumTierHi, "GuildPremiumTier").Ok? <==> n in {0, 1, 2, 3}
  {
  }

  // ---------------------------------------------------------------------
  // Guild

  datatype Guild = Guild(
    id: Json, name: Json, iconHash: Json, templateIconHash: Json, splashHash: Json,
    discoverySplashHash: Json, isBotOwner: Json, ownerId: Json, permissions: Json,
    afkChannelId: Json, afkTimeout: Json, hasWidgetEnabled: Json, widgetChannelId: Json,
    verificationLevel: int, messageNotificationsLevel: int, explicitContentFilter: int,
    roles: seq<Role>, emojis: seq<Emoji>, features: Json, mfaLevel: int,
    applicationId: Json, systemChannelId: Json, systemChannelFlags: Json,
    rulesChannelId: Json, joinedAt: Json, large: Json, unavailable: Json,
    memberCount: Json, voiceStates: Json, members: seq<Member>,
    channels: seq<ChannelModel.Channel>, threads: Json, presences: Json,
    maxPresences: Json, maxMembers: Json, vanityUrlCode: Json, description: Json,
    bannerHash: Json, premiumTier: int, premiumSubscriptionCount: Json,
    preferredLocale: Json, publicUpdatesChannelId: Json, maxVideoChannelUsers: Json,
    approximateMemberCount: Json, approximatePresenceCount: Json, welcomeScreen: Json,
    nsfwLevel: int, stageInstances: Json, stickers: Json, scheduledEvents: Json,
    premiumProgressBarEnabled: Json)

  /** An enum field that is present and decodes. */
  predicate EnumOk(fs: Dict<Json>, key: string, hi: nat) {
    HasKey(fs, key) && IntValue(Lookup(fs, key).value).Some?
    && 0 <= IntValue(Lookup(fs, key).value).value <= hi
  }

  /** The guild's payload conditions, stated key by key rather than in the
      constructor's order, in three groups. */
  predicate HeadOk(data: Json) {
    data.JObj? && HasKey(data.fields, "id") && HasKey(data.fields, "name")
    && HasKey(data.fields, "owner_id") && HasKey(data.fields, "afk_timeout")
    && EnumOk(data.fields, "verification_level", VerificationHi)
    && EnumOk(data.fields, "default_message_notifications", NotificationHi)
    && EnumOk(data.fields, "explicit_content_filter", ContentFilterHi)
  }

  predicate ListsOk(fs: Dict<Json>) {
    HasKey(fs, "roles") && MapIter(Lookup(fs, "roles").value, RoleFromJson).Ok?
    && HasKey(fs, "emojis") && MapIter(Lookup(fs, "emojis").value, EmojiFromJson).Ok?
    && HasKey(fs, "features") && EnumOk(fs, "mfa_level", MfaHi)
  }

  predicate TailOk(fs: Dict<Json>) {
    MapIter(FieldOr(fs, "members", JArr([])), MemberFromJson).Ok?
    && MapIter(FieldOr(fs, "channels", JArr([])), ChannelModel.FromJson).Ok?
    && EnumOk(fs, "premium_tier", PremiumTierHi) && HasKey(fs, "preferred_locale")
    && EnumOk(fs, "nsfw_level", NsfwHi)
  }

  /** When `Guild(data)` succeeds: every required key present, the six enums
      in range, and every role, emoji, member and channel payload accepted. */
  predicate GuildPayloadOk(data: Json) {
    HeadOk(data) && ListsOk(data.fields) && TailOk(data.fields)
  }

  datatype Head = Head(id: Json, name: Json, ownerId: Json, afkTimeout: Json,
    verification: int, notifications: int, filter: int)

  /** The constructor's reads from `data["id"]` to `explicit_content_filter`. */
  function ReadHead(data: Json): (r: Result<Head>)
    ensures r.Ok? <==> HeadOk(data)
    ensures r.Ok? ==> r.value.verification == IntValue(Lookup(data.fields, "verification_level").value).value
    ensures r.Ok? ==> r.value.notifications == IntValue(Lookup(data.fields, "default_message_notifications").value).value
    ensures r.Ok? ==> r.value.filter == IntValue(Lookup(data.fields, "explicit_content_filter").value).value
  {
    var id :- Subscript(data, "id");
    var name :- Subscript(data, "name");
    var ownerId :- Subscript(data, "owner_id");
    var afkTimeout :- Subscript(data, "afk_timeout");
    var rawVerification :- Subscript(data, "verification_level");
    var verification :- DecodeRange(rawVerification, VerificationHi, "GuildVerificationLevel");
    var rawNotifications :- Subscript(data, "default_message_notifications");
    var notifications :- DecodeRange(rawNotifications, NotificationHi, "GuildNotificationLevel");
    var rawFilter :- Subscript(data, "explicit_content_filter");
    var filter :- DecodeRange(rawFilter, ContentFilterHi, "GuildExplicitContentFilter");
    Ok(Head(id, name, ownerId, afkTimeout, verification, notifications, filter))
  }

  datatype Lists = Lists(roles: seq<Role>, emojis: seq<Emoji>, features: Json, mfa: int)

  /** The reads from `data["roles"]` to `mfa_level`. */
  function ReadLists(data: Json): (r: Result<Lists>)
    requires data.JObj?
    ensures r.Ok? <==> ListsOk(data.fields)
    ensures r.Ok? ==> r.value.mfa == IntValue(Lookup(data.fields, "mfa_level").value).value
  {
    var rawRoles :- Subscript(data, "roles");
    var roles :- MapIter(rawRoles, RoleFromJson);
    var rawEmojis :- Subscript(data, "emojis");
    var emojis :- MapIter(rawEmojis, EmojiFromJson);
    var features :- Subscript(data, "features");
    var rawMfa :- Subscript(data, "mfa_level");
    var mfa :- DecodeRange(rawMfa, MfaHi, "GuildMFALevel");
    Ok(Lists(roles, emojis, features, mfa))
  }

  datatype Tail = Tail(members: seq<Member>, channels: seq<ChannelModel.Channel>,
    tier: int, locale: Json, nsfw: int)

  /** The reads from `members` to `nsfw_level`. */
  function ReadTail(data: Json): (r: Result<Tail>)
    requires data.JObj?
    ensures r.Ok? <==> TailOk(data.fields)
    ensures r.Ok? && !HasKey(data.fields, "members") ==> r.value.members == []
    ensures r.Ok? && !HasKey(data.fields, "channels") ==> r.value.channels == []
    ensures r.Ok? ==> r.value.nsfw == IntValue(Lookup(data.fields, "nsfw_level").value).value
    ensures r.Ok? ==> r.value.tier == IntValue(Lookup(data.fields, "premium_tier").value).value
  {
    var fs := data.fields;
    var members :- MapIter(FieldOr(fs, "members", JArr([])), MemberFromJson);
    var channels :- MapIter(FieldOr(fs, "channels", JArr([])), ChannelModel.FromJson);
    var rawTier :- Subscript(data, "premium_tier");
    var tier :- DecodeRange(rawTier, PremiumTierHi, "GuildPremiumTier");
    var locale :- Subscript(data, "preferred_locale");
    var rawNsfw :- Subscript(data, "nsfw_level");
    var nsfw :- DecodeRange(rawNsfw, NsfwHi, "GuildNSFWLevel");
    Ok(Tail(members, channels, tier, locale, nsfw))
  }

  /** `Guild(data)`: the required reads in the constructor's order, every
      other attribute `data.get(key)`, and `member_count` defaulting to -1. */
  function GuildFromJson(data: Json): (r: Result<Guild>)
    ensures r.Ok? <==> GuildPayloadOk(data)
    ensures r.Ok? ==> r.value.verificationLevel == IntValue(Lookup(data.fields, "verification_level").value).value
    ensures r.Ok? ==> r.value.nsfwLevel == IntValue(Lookup(data.fields, "nsfw_level").value).value
    ensures r.Ok? ==> r.value.messageNotificationsLevel == IntValue(Lookup(data.fields, "default_message_notifications").value).value
    ensures r.Ok? ==> r.value.explicitContentFilter == IntValue(Lookup(data.fields, "explicit_content_filter").value).value
    ensures r.Ok? ==> r.value.mfaLevel == IntValue(Lookup(data.fields, "mfa_level").value).value
    ensures r.Ok? ==> r.value.premiumTier == IntValue(Lookup(data.fields, "premium_tier").value).value
    ensures r.Ok? && !HasKey(data.fields, "member_count") ==> r.value.memberCount == JInt(-1)
    ensures r.Ok? && !HasKey(data.fields, "members") ==> r.value.members == []
  {
    var h :- ReadHead(data);
    var l :- ReadLists(data);
    var t :- ReadTail(data);
    var fs := data.fields;
    Ok(Guild(h.id, h.name, FieldOr(fs, "icon", JNull), FieldOr(fs, "icon_hash", JNull),
      FieldOr(fs, "splash", JNull), FieldOr(fs, "discovery_splash", JNull),
      FieldOr(fs, "owner", JNull), h.ownerId, FieldOr(fs, "permissions", JNull),
      FieldOr(fs, "afk_channel_id", JNull), h.afkTimeout, FieldOr(fs, "widget_enabled", JNull),
      FieldOr(fs, "widget_channel_id", JNull), h.verification, h.notifications, h.filter,
      l.roles, l.emojis, l.features, l.mfa, FieldOr(fs, "application_id", JNull),
      FieldOr(fs, "system_channel_id", JNull), FieldOr(fs, "system_channel_flags", JNull),
      FieldOr(fs, "rules_channel_id", JNull), FieldOr(fs, "joined_at", JNull),
      FieldOr(fs, "large", JNull), FieldOr(fs, "unavailable", JNull),
      FieldOr(fs, "member_count", JInt(-1)), FieldOr(fs, "voice_states", JNull), t.members,
      t.channels, FieldOr(fs, "threads", JNull), FieldOr(fs, "presences", JNull),
      FieldOr(fs, "max_presences", JNull), FieldOr(fs, "max_members", JNull),
      FieldOr(fs, "vanity_url_code", JNull), FieldOr(fs, "description", JNull),
      FieldOr(fs, "banner", JNull), t.tier, FieldOr(fs, "premium_subscription_count", JNull),
      t.locale, FieldOr(fs, "public_updates_channel_id", JNull),
      FieldOr(fs, "max_video_channel_users", JNull),
      FieldOr(fs, "approximate_member_count", JNull),
      FieldOr(fs, "approximate_presence_count", JNull), FieldOr(fs, "welcome_screen", JNull),
      t.nsfw, FieldOr(fs, "stage_instances", JNull), FieldOr(fs, "stickers", JNull),
      FieldOr(fs, "guild_scheduled_events", JNull),
      FieldOr(fs, "premium_progress_bar_enabled", JNull)))
  }

  /** A guild is built only from a payload holding every key the
      constructor subscripts. */
  lemma GuildNeedsRequiredKeys(data: Json)
    requires GuildFromJson(data).Ok?
    ensures data.JObj?
    ensures var fs := data.fields;
      HasKey(fs, "id") && HasKey(fs, "name") && HasKey(fs, "owner_id") && HasKey(fs, "afk_timeout")
      && HasKey(fs, "verification_level") && HasKey(fs, "default_message_notifications")
      && HasKey(fs, "explicit_content_filter") && HasKey(fs, "roles") && HasKey(fs, "emojis")
      && HasKey(fs, "features") && HasKey(fs, "mfa_level") && HasKey(fs, "premium_tier")
      && HasKey(fs, "preferred_locale") && HasKey(fs, "nsfw_level")
  {
    assert HeadOk(data) && ListsOk(data.fields) && TailOk(data.fields);
  }

  /** An enum value outside its domain makes the whole construction fail. */
  lemma GuildRejectsBadEnum(data: Json)
    requires data.JObj? && HasKey(data.fields, "nsfw_level")
    requires IntValue(Lookup(data.fields, "nsfw_level").value) == Some(4)
    ensures GuildFromJson(data).Err?
  {
  }
}
