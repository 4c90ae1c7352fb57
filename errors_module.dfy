/** pycordia/errors.py: `QueryError`, its subclass `GatewayError` (a second
    gateway error, distinct from the one in pycordia/errors/general.py) and
    `ComponentError`. */
module QueryErrors {
  import opened Py
  import opened Json
  import GeneralErrors

  /** The two classes that share `QueryError.__init__`. */
  datatype Kind = Query | Gateway

  /** A `QueryError` (or `GatewayError`) keeps `code` and `message` as given. */
  datatype QueryError = QueryError(kind: Kind, code: Json, message: Json)

  /** `QueryError(code, message)` / `GatewayError(code, message)` */
  function Make(kind: Kind, code: Json, message: Json): (e: QueryError)
    ensures e.code == code && e.message == message && e.kind == kind
  {
    QueryError(kind, code, message)
  }

  /** `str(e)` */
  function Text(e: QueryError): string {
    Str(e.message) + (" (error code " + (Str(e.code) + ")"))
  }

  /** This module's `GatewayError` formats exactly like `QueryError`: the
      kind plays no part in the text. */
  lemma GatewayFormatsAsQuery(code: Json, message: Json)
    ensures Text(Make(Gateway, code, message)) == Text(Make(Query, code, message))
    ensures Text(Make(Gateway, code, message)) == Str(message) + " (error code " + Str(code) + ")"
  {
    ConcatAssoc(Str(message), " (error code ", Str(code) + ")");
    ConcatAssoc(Str(message) + " (error code ", Str(code), ")");
  }

  /** This module's gateway error gives no cause hint: its text is the
      general gateway error's text with the hint (or "None") and the space
      after it taken out. */
  lemma NoCauseText(code: int, message: Json)
    ensures Text(Make(Gateway, JInt(code), message))
      == Str(message) + " " + GeneralErrors.CodeSuffix(code)
    ensures GeneralErrors.Text(GeneralErrors.GatewayError(code, message))
      == Str(message) + " " + GeneralErrors.CauseText(code) + " " + GeneralErrors.CodeSuffix(code)
  {
    var suffix := GeneralErrors.CodeSuffix(code);
    assert " (error code " + (Str(JInt(code)) + ")") == " " + suffix by {
      assert " (error code " == " " + "(error code ";
      ConcatAssoc(" ", "(error code ", IntToDecimal(code) + ")");
    }
    ConcatAssoc(Str(message), " ", suffix);
  }

  /** Hence it is strictly shorter than the general one for the same code
      and message. */
  lemma ShorterThanGeneral(code: int, message: Json)
    ensures |Text(Make(Gateway, JInt(code), message))|
      < |GeneralErrors.Text(GeneralErrors.GatewayError(code, message))|
  {
    NoCauseText(code, message);
    assert |GeneralErrors.CauseText(code)| > 0;
  }

  /** `ComponentError(text)` carries exactly its text. */
  function Component(text: string): (e: PyError)
    ensures e.ComponentError? && e.text == text
  {
    ComponentError(text)
  }
}
