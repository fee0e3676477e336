/** How the browser client reads the service's validation-error body: the
    object built by the service's exception handler, handed to the client's
    reply handling. */
module ClientServer {
  import opened Wrappers
  import opened Json
  import opened Api
  import opened Body

  /** A rejected request whose validation errors start with an entry that
      has a non-empty string `msg` is reported with that text; a rejection
      with no errors falls back to the generic server message, since an
      array detail is never shown itself. */
  lemma ValidationErrorAlert(errors: seq<JValue>)
    ensures |errors| > 0 && errors[0].JObj? && "msg" in errors[0].fields &&
            errors[0].fields["msg"].JStr? && errors[0].fields["msg"].s != "" ==>
              ReplyAlert(Rejected(ValidationErrorResponse(errors).content)) ==
                Some(ServerDetail(errors[0].fields["msg"]))
    ensures |errors| == 0 ==>
              ReplyAlert(Rejected(ValidationErrorResponse(errors).content)) ==
                Some(ServerDetail(JStr(SERVER_FALLBACK)))
  {
    var body := ValidationErrorResponse(errors).content;
    assert body != JNull;
    assert Member(body, "detail") == Some(JArr(errors));
  }
}
