/** pycordia/models/user.py: a Discord user mirrored from its JSON payload. */
module UserModel {
  import opened Py
  import opened Json

  /** Every attribute is the payload's value, or None (JNull) when absent. */
  datatype User = User(
    userId: Json, username: Json, discriminator: Json, avatarHash: Json,
    bot: Json, system: Json, mfaEnabled: Json, banner: Json, accentColor: Json,
    locale: Json, verified: Json, email: Json, flags: Json, premiumType: Json,
    publicFlags: Json)

  /** The payload keys, in the order the constructor reads them. */
  const UserKeys: seq<string> := ["id", "username", "discriminator", "avatar", "bot",
    "system", "mfa_enabled", "banner", "accent_color", "locale", "verified", "email",
    "flags", "premium_type", "public_flags"]

  function Fields(u: User): seq<Json> {
    [u.userId, u.username, u.discriminator, u.avatarHash, u.bot, u.system, u.mfaEnabled,
     u.banner, u.accentColor, u.locale, u.verified, u.email, u.flags, u.premiumType,
     u.publicFlags]
  }

  /** `User(json)`: every attribute is `json.get(key)`; only a dict has `.get`. */
  function FromJson(data: Json): (r: Result<User>)
    ensures r.Ok? <==> data.JObj?
  {
    match data
    case JObj(fs) =>
      Ok(User(FieldOr(fs, "id", JNull), FieldOr(fs, "username", JNull),
        FieldOr(fs, "discriminator", JNull), FieldOr(fs, "avatar", JNull),
        FieldOr(fs, "bot", JNull), FieldOr(fs, "system", JNull),
        FieldOr(fs, "mfa_enabled", JNull), FieldOr(fs, "banner", JNull),
        FieldOr(fs, "accent_color", JNull), FieldOr(fs, "locale", JNull),
        FieldOr(fs, "verified", JNull), FieldOr(fs, "email", JNull),
        FieldOr(fs, "flags", JNull), FieldOr(fs, "premium_type", JNull),
        FieldOr(fs, "public_flags", JNull)))
    case _ => Err(AttributeError("object has no attribute 'get'"))
  }

  /** Attribute i is the payload's value under key i, and None when that
      key is absent. */
  lemma FieldFromPayload(fs: Dict<Json>, i: nat)
    requires i < |UserKeys|
    ensures FromJson(JObj(fs)).Ok?
    ensures Fields(FromJson(JObj(fs)).value)[i] == FieldOr(fs, UserKeys[i], JNull)
    ensures !HasKey(fs, UserKeys[i]) ==> Fields(FromJson(JObj(fs)).value)[i] == JNull
  {
  }

  /** `User({})` has every attribute None. */
  lemma EmptyUser(empty: Dict<Json>)
    requires empty == []
    ensures FromJson(JObj(empty)) == Ok(NoUser)
  {
  }

  const NoUser := User(JNull, JNull, JNull, JNull, JNull, JNull, JNull,
    JNull, JNull, JNull, JNull, JNull, JNull, JNull, JNull)

  /** `repr(user)`: "username#discriminator", None rendered as "None". */
  function ReprText(u: User): string {
    Str(u.username) + "#" + Str(u.discriminator)
  }

  /** `user.mention`: "<@!" followed by the id; the source writes no closing ">". */
  function Mention(u: User): string {
    "<@!" + Str(u.userId)
  }

  /** `user.avatar_url` */
  function AvatarUrl(u: User): string {
    "https://cdn.discordapp.com/avatars/" + Str(u.userId) + "/" + Str(u.avatarHash) + ".png"
  }

  /** A mention of a numeric id never ends with ">": the mention is not closed. */
  lemma MentionIsUnclosed(u: User, id: nat)
    requires u.userId == JStr(NatToDecimal(id)) || u.userId == JInt(id)
    ensures StartsWith(Mention(u), "<@!")
    ensures Mention(u)[3..] == NatToDecimal(id)
    ensures Mention(u)[|Mention(u)| - 1] != '>'
  {
    var m := Mention(u);
    assert Str(u.userId) == NatToDecimal(id);
    assert m[|m| - 1] == NatToDecimal(id)[|NatToDecimal(id)| - 1];
  }

  /** The username is the text before the first "#" of the repr when the
      username itself has no "#". */
  lemma ReprSplitsAtHash(u: User, name: string)
    requires u.username == JStr(name) && '#' !in name
    ensures ReprText(u)[..|name|] == name && ReprText(u)[|name|] == '#'
    ensures ReprText(u)[|name| + 1..] == Str(u.discriminator)
  {
  }

  /** The avatar URL is the CDN prefix, the id, a slash and the hash with ".png". */
  lemma AvatarUrlShape(u: User)
    ensures StartsWith(AvatarUrl(u), "https://cdn.discordapp.com/avatars/")
    ensures EndsWith(AvatarUrl(u), Str(u.avatarHash) + ".png")
  {
    var p := "https://cdn.discordapp.com/avatars/";
    assert AvatarUrl(u) == p + (Str(u.userId) + "/" + Str(u.avatarHash) + ".png");
    assert AvatarUrl(u) == (p + Str(u.userId) + "/") + (Str(u.avatarHash) + ".png");
  }
}
