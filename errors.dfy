/** Turning a failed request into the text shown to the user. */
module Errors {
  import opened Wrappers
  import opened Types

  /** The `error` member of a structured backend error body, its `code` as it prints. */
  datatype ApiError = ApiError(code: string, message: string)

  /**
   * `JSON.parse(body).error`: `None` when parsing throws, and also when the parsed
   * value has no `error` member (reading `.code` of it would throw the same way).
   */
  type JsonParser = string -> Option<ApiError>

  const Prefix: string := "Stackdriver: "
  const CannotConnect: string := "Cannot connect to Stackdriver API"

  predicate StartsWith(s: string, prefix: string) {
    |prefix| <= |s| && s[..|prefix|] == prefix
  }

  predicate EndsWith(s: string, suffix: string) {
    |suffix| <= |s| && s[|s| - |suffix|..] == suffix
  }

  predicate Contains(s: string, t: string) {
    exists i, j :: 0 <= i <= j <= |s| && s[i..j] == t
  }

  lemma ContainsAt(s: string, t: string, i: nat)
    requires i + |t| <= |s| && s[i..i + |t|] == t
    ensures Contains(s, t)
  {
  }

  /** `statusText + ': '` when the status text is truthy, else nothing. */
  function StatusPart(e: HttpError): string {
    if Truthy(e.StatusText()) then e.StatusText().value + ": " else ""
  }

  /** `formatStackdriverError(error)`. */
  function FormatStackdriverError(parse: JsonParser, e: HttpError): (m: string)
    ensures StartsWith(m, Prefix + StatusPart(e))
    ensures !Truthy(e.BodyError()) ==> EndsWith(m, CannotConnect)
    ensures Truthy(e.BodyError()) && parse(e.BodyError().value).None? ==> EndsWith(m, e.BodyError().value)
    ensures Truthy(e.BodyError()) && parse(e.BodyError().value).Some? ==>
      var err := parse(e.BodyError().value).value;
      EndsWith(m, err.code + ". " + err.message)
    ensures |m| == |Prefix + StatusPart(e)| +
      (if !Truthy(e.BodyError()) then |CannotConnect|
       else if parse(e.BodyError().value).None? then |e.BodyError().value|
       else |parse(e.BodyError().value).value.code| + 2 + |parse(e.BodyError().value).value.message|)
  {
    var head := Prefix + StatusPart(e);
    var detail :=
      if Truthy(e.BodyError()) then
        match parse(e.BodyError().value)
        case Some(err) => err.code + ". " + err.message
        case None => e.BodyError().value
      else CannotConnect;
    assert (head + detail)[..|head|] == head;
    assert (head + detail)[|head + detail| - |detail|..] == detail;
    head + detail
  }

  /** A structured body yields a message naming both its code and its text. */
  lemma {:induction false} StructuredBodyNamesCodeAndMessage(parse: JsonParser, e: HttpError)
    requires Truthy(e.BodyError()) && parse(e.BodyError().value).Some?
    ensures var err := parse(e.BodyError().value).value;
      var m := FormatStackdriverError(parse, e);
      Contains(m, err.code) && Contains(m, err.message)
  {
    var err := parse(e.BodyError().value).value;
    var m := FormatStackdriverError(parse, e);
    var tail := err.code + ". " + err.message;
    var start := |m| - |tail|;
    assert m[start..] == tail;
    assert m[start..start + |err.code|] == tail[..|err.code|] == err.code;
    ContainsAt(m, err.code, start);
    assert m[|m| - |err.message|..|m|] == tail[|tail| - |err.message|..] == err.message;
    ContainsAt(m, err.message, |m| - |err.message|);
  }

  /** An unparseable body is quoted verbatim. */
  lemma {:induction false} RawBodyQuotedVerbatim(parse: JsonParser, e: HttpError)
    requires Truthy(e.BodyError()) && parse(e.BodyError().value).None?
    ensures Contains(FormatStackdriverError(parse, e), e.BodyError().value)
  {
    var m := FormatStackdriverError(parse, e);
    var body := e.BodyError().value;
    assert m[|m| - |body|..|m| - |body| + |body|] == body;
    ContainsAt(m, body, |m| - |body|);
  }

  /** The message of a failed connectivity test; it does not parse the body. */
  function TestErrorMessage(e: HttpError): (m: string)
    ensures e.StringError? ==> m == e.text
    ensures e.ResponseError? ==> StartsWith(m, Prefix + (if Truthy(e.statusText) then e.statusText.value else CannotConnect))
    ensures e.ResponseError? && Truthy(e.BodyError()) ==> EndsWith(m, ": " + e.BodyError().value)
    ensures e.ResponseError? && Truthy(e.BodyError()) ==>
      |m| == |Prefix + (if Truthy(e.statusText) then e.statusText.value else CannotConnect)| + 2 + |e.BodyError().value|
    ensures e.ResponseError? && !Truthy(e.BodyError()) ==> m == Prefix + (if Truthy(e.statusText) then e.statusText.value else CannotConnect)
  {
    match e
    case StringError(text) => text
    case ResponseError(statusText, _) =>
      var head := Prefix + OrElse(statusText, CannotConnect);
      var tail := if Truthy(e.BodyError()) then ": " + e.BodyError().value else "";
      assert (head + tail)[..|head|] == head;
      assert (head + tail)[|head + tail| - |tail|..] == tail;
      head + tail
  }
}
