/** FastAPI's `HTTPException` as the gateway raises it: a status code and a
    detail that is either a dict or some other value. Its `str()` is
    "<status>: <detail>", which is how the gateway turns one error into the
    message of another. */
module Errors {
  import opened Strings
  import opened Dicts
  import opened Json

  datatype Detail = DictDetail(fields: Dict<Json>) | ValueDetail(value: Json)

  datatype HttpError = HttpError(status: int, detail: Detail)

  /** The `{"message": m}` detail most of the gateway's errors carry. */
  function MessageDetail(m: string): Detail {
    DictDetail([("message", JStr(m))])
  }

  /** `str(detail)`. */
  function DetailText(d: Detail): string {
    match d
    case DictDetail(fields) => Repr(JObj(fields))
    case ValueDetail(v) => Str(v)
  }

  /** `str(exc)` of an `HTTPException`. */
  function ExcText(e: HttpError): string {
    Decimal(e.status) + ": " + DetailText(e.detail)
  }

  /** The text of `str(HTTPException(status, {"message": text}))`: the message
      dict is rendered with Python's `repr`, so plain text survives verbatim. */
  lemma MessageExcTextKeepsText(status: int, text: string)
    requires Plain(text)
    ensures ExcText(HttpError(status, MessageDetail(text)))
      == Decimal(status) + ": {'message': '" + text + "'}"
    ensures Contains(ExcText(HttpError(status, MessageDetail(text))), text)
  {
    MessageDetailText(text);
    ExcTextGlue(Decimal(status), text);
    ContainsInfix(Decimal(status) + ": {'message': '", text, "'}");
  }

  lemma ExcTextGlue(d: string, text: string)
    ensures d + ": " + ("{'message': '" + text + "'}") == d + ": {'message': '" + text + "'}"
  {
  }

  lemma MessageDetailText(text: string)
    requires Plain(text)
    ensures DetailText(MessageDetail(text)) == "{'message': '" + text + "'}"
  {
    SingleFieldShape("message", JStr(text));
    MessageKeyRepr();
    StrReprPlain(text);
    MessageGlue(text);
  }

  /** The dict key `message` is rendered between single quotes. */
  lemma MessageKeyRepr()
    ensures StrRepr("message") == "'" + "message" + "'"
  {
    assert Plain("message");
    StrReprPlain("message");
  }

  lemma MessageGlue(text: string)
    ensures "{" + ("'" + "message" + "'") + ": " + ("'" + text + "'") + "}" == "{'message': '" + text + "'}"
  {
  }

  /** A one-entry dict renders as its key's repr, ": " and the value's repr,
      in braces. */
  lemma SingleFieldShape(k: string, v: Json)
    ensures DetailText(DictDetail([(k, v)])) == "{" + StrRepr(k) + ": " + Repr(v) + "}"
  {
    var fields := [(k, v)];
    assert ReprFields(JObj(fields), fields) == StrRepr(k) + ": " + Repr(v);
  }
}
