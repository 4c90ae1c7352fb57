/** pycordia/errors/general.py: the gateway error with its close-code cause
    table, and the texts of `MutuallyExclusiveError` and `ClientSetupError`.
    An exception is modelled by the text it passes to `Exception.__init__`. */
module GeneralErrors {
  import opened Py
  import opened Json

  /** The gateway close codes the source explains. */
  const InternalErrorCodes: set<int> := {4001, 4002, 4007, 4012}
  const ExplainedCodes: set<int> := {4001, 4002, 4003, 4004, 4007, 4008, 4012, 4013, 4014}

  /** The hints. */
  const InternalHint := "This is an internal error."
  const AuthenticateHint := "Please authenticate and try again."
  const TokenHint := "Make sure the token you provided is valid and has not expired."
  const RateLimitHint := "Please wait a few seconds, then try again."
  const IntentValueHint := "Make sure you have provided a valid intent value."
  const IntentApprovalHint := "Make sure you have approved/enabled the use of the provided intents."

  /** The `extra` hint chosen for a close code; None for any other code. */
  function Cause(code: int): (extra: Option<string>)
    ensures extra.Some? <==> code in ExplainedCodes
  {
    if code in InternalErrorCodes then Some(InternalHint)
    else if code == 4003 then Some(AuthenticateHint)
    else if code == 4004 then Some(TokenHint)
    else if code == 4008 then Some(RateLimitHint)
    else if code == 4013 then Some(IntentValueHint)
    else if code == 4014 then Some(IntentApprovalHint)
    else None
  }

  /** `GatewayError(code, message)` as the gateway raises it. */
  datatype GatewayError = GatewayError(code: int, message: Json)

  /** `str(extra)` inside the f-string: an unexplained code shows "None". */
  function CauseText(code: int): string {
    match Cause(code)
    case Some(t) => t
    case None => "None"
  }

  function CodeSuffix(code: int): string {
    "(error code " + (IntToDecimal(code) + ")")
  }

  /** The message and the hint, each followed by a space. */
  function Lead(e: GatewayError): string {
    Str(e.message) + " " + CauseText(e.code) + " "
  }

  /** `str(GatewayError(code, message))` */
  function Text(e: GatewayError): string {
    Lead(e) + CodeSuffix(e.code)
  }

  /** The cause table, code by code. */
  lemma CauseTable(code: int)
    ensures code in {4001, 4002, 4007, 4012} ==> Cause(code) == Some("This is an internal error.")
    ensures code == 4003 ==> Cause(code) == Some("Please authenticate and try again.")
    ensures code == 4004 ==> Cause(code) == Some("Make sure the token you provided is valid and has not expired.")
    ensures code == 4008 ==> Cause(code) == Some("Please wait a few seconds, then try again.")
    ensures code == 4013 ==> Cause(code) == Some("Make sure you have provided a valid intent value.")
    ensures code == 4014 ==> Cause(code) == Some("Make sure you have approved/enabled the use of the provided intents.")
  {
  }

  /** Any other code renders its hint as "None". */
  lemma UnexplainedIsNone(code: int)
    requires code !in {4001, 4002, 4003, 4004, 4007, 4008, 4012, 4013, 4014}
    ensures CauseText(code) == "None"
  {
  }

  /** The normal closure codes have no cause: a 1000 or 1001 close still
      renders as an error, with the literal "None" as its hint. */
  lemma NormalClosesUnexplained(message: Json, code: int)
    requires code == 1000 || code == 1001
    ensures Text(GatewayError(code, message)) == Str(message) + " " + "None" + " " + CodeSuffix(code)
  {
    UnexplainedIsNone(code);
  }

  /** The text ends with the code in decimal, from which `int()` reads it
      back. */
  lemma {:induction false} CodeReadBack(e: GatewayError)
    ensures EndsWith(Text(e), CodeSuffix(e.code))
    ensures ParseInt(Text(e)[|Text(e)| - |CodeSuffix(e.code)| + 12 .. |Text(e)| - 1]) == Some(e.code)
  {
    SuffixDigits(Lead(e), e.code);
    ReadsBack(Text(e)[|Text(e)| - |CodeSuffix(e.code)| + 12 .. |Text(e)| - 1], e.code);
  }

  /** Whatever precedes it, a code suffix ends the text and holds the code
      in decimal. */
  lemma SuffixDigits(lead: string, code: int)
    ensures EndsWith(lead + CodeSuffix(code), CodeSuffix(code))
    ensures var t := lead + CodeSuffix(code);
      t[|t| - |CodeSuffix(code)| + 12 .. |t| - 1] == IntToDecimal(code)
  {
    var s := CodeSuffix(code);
    SuffixOfConcat(lead, s);
    SuffixParts(code);
    SliceOfConcat(lead, s, 12, |s| - 1);
  }

  /** A code suffix opens with "(" and holds the decimal code between its
      first twelve characters and its closing ")". */
  lemma SuffixParts(code: int)
    ensures |CodeSuffix(code)| == 13 + |IntToDecimal(code)|
    ensures CodeSuffix(code)[0] == '('
    ensures CodeSuffix(code)[12..|CodeSuffix(code)| - 1] == IntToDecimal(code)
  {
    var d := IntToDecimal(code);
    assert |"(error code "| == 12;
    SliceOfConcat("(error code ", d + ")", 0, |d|);
    assert (d + ")")[0..|d|] == d;
  }

  lemma ReadsBack(text: string, code: int)
    requires text == IntToDecimal(code)
    ensures ParseInt(text) == Some(code)
  {
    ParseIntOfDecimal(code);
  }

  /** Only the first character of a code suffix is an opening parenthesis. */
  lemma OneOpenParen(code: int, i: nat)
    requires 0 < i < |CodeSuffix(code)|
    ensures CodeSuffix(code)[i] != '('
  {
    var s, d := CodeSuffix(code), IntToDecimal(code);
    if 12 <= i < |s| - 1 {
      assert s[i] == d[i - 12];
      if code < 0 {
        assert d == "-" + NatToDecimal(-code);
        if i > 12 { assert d[i - 12] == NatToDecimal(-code)[i - 13]; }
      }
    }
  }

  /** A text ends with at most one code suffix. */
  lemma SuffixDeterminesCode(t: string, x: int, y: int)
    requires EndsWith(t, CodeSuffix(x)) && EndsWith(t, CodeSuffix(y))
    ensures x == y
  {
    var sx, sy := CodeSuffix(x), CodeSuffix(y);
    SuffixParts(x);
    SuffixParts(y);
    if |sx| < |sy| {
      var k := |sy| - |sx|;
      assert sy[k] == t[|t| - |sx|] == sx[0];
      OneOpenParen(y, k);
    } else if |sy| < |sx| {
      var k := |sx| - |sy|;
      assert sx[k] == t[|t| - |sy|] == sy[0];
      OneOpenParen(x, k);
    } else {
      assert sx == sy;
      ReadsBack(sx[12..|sx| - 1], x);
      ReadsBack(sy[12..|sy| - 1], y);
    }
  }

  /** Errors with different codes have different texts: the code can be
      told apart from the rendered text alone. */
  lemma DistinctCodesDistinctTexts(a: GatewayError, b: GatewayError)
    requires a.code != b.code
    ensures Text(a) != Text(b)
  {
    CodeReadBack(a);
    CodeReadBack(b);
    if Text(a) == Text(b) {
      SuffixDeterminesCode(Text(a), a.code, b.code);
    }
  }

  // ---------------------------------------------------------------------
  // MutuallyExclusiveError and ClientSetupError

  /** `repr(args)` for a tuple of values: a one-element tuple keeps its
      trailing comma. */
  function TupleRepr(args: seq<Json>): (r: string)
    ensures StartsWith(r, "(") && EndsWith(r, ")")
    ensures |args| == 1 ==> EndsWith(r, ",)")
  {
    var inner := ReprItems(args) + (if |args| == 1 then "," else "");
    PrefixOfConcat("(" + inner, ")");
    PrefixOfConcat("(", inner);
    StartsWithTrans("(" + inner + ")", "(" + inner, "(");
    "(" + inner + ")"
  }

  const ExclusiveLead := "Only one of this group "

  /** The part of the text after the group. */
  function ExclusiveTail(mutualCount: int): (r: string)
    ensures EndsWith(r, ", found " + IntToDecimal(mutualCount) + ".")
  {
    SuffixOfConcat(" can be provided at a time", ", found " + IntToDecimal(mutualCount) + ".");
    " can be provided at a time" + (", found " + IntToDecimal(mutualCount) + ".")
  }

  /** `str(MutuallyExclusiveError(args, mutual_count))`: the group's repr
      follows the lead, and the count ends the text. */
  function MutuallyExclusiveText(args: seq<Json>, mutualCount: int): (t: string)
    ensures StartsWith(t, "Only one of this group (")
    ensures |ExclusiveLead| + |TupleRepr(args)| <= |t|
      && t[|ExclusiveLead|..|ExclusiveLead| + |TupleRepr(args)|] == TupleRepr(args)
    ensures EndsWith(t, ", found " + IntToDecimal(mutualCount) + ".")
  {
    var group := TupleRepr(args);
    var tail := ExclusiveTail(mutualCount);
    StartsWithAfter(ExclusiveLead, group, "(");
    assert ExclusiveLead + "(" == "Only one of this group (";
    PrefixOfConcat(ExclusiveLead + group, tail);
    StartsWithTrans(ExclusiveLead + group + tail, ExclusiveLead + group, "Only one of this group (");
    InfixOfConcat(ExclusiveLead, group, tail);
    EndsWithAfter(ExclusiveLead + group, tail, ", found " + IntToDecimal(mutualCount) + ".");
    ExclusiveLead + group + tail
  }

  /** `str(ClientSetupError(message))`: the given message, or the default
      text when the message is falsy. */
  function ClientSetupText(message: Json): (t: string)
    ensures !Truthy(message) ==> t == "No initialized client found"
    ensures Truthy(message) ==> t == Str(message)
  {
    if Truthy(message) then Str(message) else "No initialized client found"
  }

  /** `ClientSetupError(message)` as an exception value. */
  function ClientSetup(message: Json): (e: PyError)
    ensures e.ClientSetupError? && e.text == ClientSetupText(message)
  {
    ClientSetupError(ClientSetupText(message))
  }
}
