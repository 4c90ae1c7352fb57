/** pycordia/client.py, class `Intents`: gateway intents as bit flags. */
module Intents {
  /** The members of `Intents`, in declaration order. */
  datatype Intent =
    | Guilds | GuildMembers | GuildBans | GuildEmojisAndStickers | GuildIntegrations
    | GuildWebhooks | GuildInvites | GuildVoiceStates | GuildPresences | GuildMessages
    | GuildMessageReactions | GuildMessageTyping | DirectMessages
    | DirectMessageReactions | DirectMessageTyping

  /** The bit each intent sets: its value is `1 << Bit(x)`. */
  function Bit(x: Intent): (n: nat)
    ensures n < 15
  {
    match x
    case Guilds => 0
    case GuildMembers => 1
    case GuildBans => 2
    case GuildEmojisAndStickers => 3
    case GuildIntegrations => 4
    case GuildWebhooks => 5
    case GuildInvites => 6
    case GuildVoiceStates => 7
    case GuildPresences => 8
    case GuildMessages => 9
    case GuildMessageReactions => 10
    case GuildMessageTyping => 11
    case DirectMessages => 12
    case DirectMessageReactions => 13
    case DirectMessageTyping => 14
  }

  /** `intent.value`, written out; all values fit in sixteen bits. */
  function Value(x: Intent): bv16 {
    match x
    case Guilds => 0x0001
    case GuildMembers => 0x0002
    case GuildBans => 0x0004
    case GuildEmojisAndStickers => 0x0008
    case GuildIntegrations => 0x0010
    case GuildWebhooks => 0x0020
    case GuildInvites => 0x0040
    case GuildVoiceStates => 0x0080
    case GuildPresences => 0x0100
    case GuildMessages => 0x0200
    case GuildMessageReactions => 0x0400
    case GuildMessageTyping => 0x0800
    case DirectMessages => 0x1000
    case DirectMessageReactions => 0x2000
    case DirectMessageTyping => 0x4000
  }

  /** Each intent is declared as `1 << n`, n being its position. */
  lemma ValueIsShift(x: Intent)
    ensures Value(x) == 1 << Bit(x)
  {
  }

  const AllIntents: seq<Intent> := [Guilds, GuildMembers, GuildBans, GuildEmojisAndStickers,
    GuildIntegrations, GuildWebhooks, GuildInvites, GuildVoiceStates, GuildPresences,
    GuildMessages, GuildMessageReactions, GuildMessageTyping, DirectMessages,
    DirectMessageReactions, DirectMessageTyping]

  /** Distinct intents have distinct bits, so their values share no bit. */
  lemma DistinctIntentsDisjoint(x: Intent, y: Intent)
    ensures Value(x) != 0
    ensures x != y ==> Value(x) & Value(y) == 0
  {
  }

  /** The OR of the values of `xs`, accumulated from the left. */
  function Merged(xs: seq<Intent>): bv16 {
    if xs == [] then 0 else Merged(xs[..|xs| - 1]) | Value(xs[|xs| - 1])
  }

  /** `Intents.merge_intents(intent_list)` */
  method MergeIntents(intentList: seq<Intent>) returns (result: bv16)
    ensures result == Merged(intentList)
  {
    result := 0;
    for i := 0 to |intentList|
      invariant result == Merged(intentList[..i])
    {
      assert intentList[..i + 1][..i] == intentList[..i];
      result := result | Value(intentList[i]);
    }
    assert intentList[..|intentList|] == intentList;
  }

  /** An intent's bit is set in the merged value exactly when the intent is
      in the list; order and repetition do not matter. */
  lemma {:induction false} MergedHas(xs: seq<Intent>, x: Intent)
    ensures (Merged(xs) & Value(x) != 0) <==> x in xs
  {
    DistinctIntentsDisjoint(x, x);
    if xs != [] {
      var init, last := xs[..|xs| - 1], xs[|xs| - 1];
      assert xs == init + [last];
      MergedHas(init, x);
      DistinctIntentsDisjoint(last, x);
      AndOverOr(Merged(init), Value(last), Value(x));
    }
  }

  lemma AndOverOr(a: bv16, b: bv16, c: bv16)
    ensures (a | b) & c == (a & c) | (b & c)
  {
  }

  /** The merged value has no bit outside the fifteen intent bits. */
  lemma {:induction false} MergedBelow(xs: seq<Intent>)
    ensures Merged(xs) <= 0x7FFF
  {
    if xs != [] {
      MergedBelow(xs[..|xs| - 1]);
      var a, b := Merged(xs[..|xs| - 1]), Value(xs[|xs| - 1]);
      assert a & 0x7FFF == a && b & 0x7FFF == b;
      assert (a | b) & 0x7FFF == a | b;
    }
  }

  /** `Intents.all()` iterates the enum itself: every intent, OR-ed. */
  method All() returns (result: bv16)
    ensures result == 0x7FFF
    ensures forall x: Intent :: result & Value(x) != 0
  {
    result := MergeIntents(AllIntents);
    AllIsFifteenBits();
    forall x: Intent ensures result & Value(x) != 0 {
      MergedHas(AllIntents, x);
    }
  }

  /** The all-intents value is 2^15 - 1. */
  lemma AllIsFifteenBits()
    ensures Merged(AllIntents) == 0x7FFF
  {
    var a := AllIntents;
    assert a[..0] == [];
    MergedPrefix(a, 0); assert Merged(a[..1]) == 0x0001;
    MergedPrefix(a, 1); assert Merged(a[..2]) == 0x0003;
    MergedPrefix(a, 2); assert Merged(a[..3]) == 0x0007;
    MergedPrefix(a, 3); assert Merged(a[..4]) == 0x000F;
    MergedPrefix(a, 4); assert Merged(a[..5]) == 0x001F;
    MergedPrefix(a, 5); assert Merged(a[..6]) == 0x003F;
    MergedPrefix(a, 6); assert Merged(a[..7]) == 0x007F;
    MergedPrefix(a, 7); assert Merged(a[..8]) == 0x00FF;
    MergedPrefix(a, 8); assert Merged(a[..9]) == 0x01FF;
    MergedPrefix(a, 9); assert Merged(a[..10]) == 0x03FF;
    MergedPrefix(a, 10); assert Merged(a[..11]) == 0x07FF;
    MergedPrefix(a, 11); assert Merged(a[..12]) == 0x0FFF;
    MergedPrefix(a, 12); assert Merged(a[..13]) == 0x1FFF;
    MergedPrefix(a, 13); assert Merged(a[..14]) == 0x3FFF;
    MergedPrefix(a, 14); assert Merged(a[..15]) == 0x7FFF;
    assert a[..15] == a;
  }

  lemma {:induction false} MergedPrefix(xs: seq<Intent>, k: nat)
    requires k < |xs|
    ensures Merged(xs[..k + 1]) == Merged(xs[..k]) | Value(xs[k])
  {
    assert xs[..k + 1][..k] == xs[..k];
  }
}
