/** backend/core/exceptions.py: every error response DRF produces gets the
    body the mobile client expects, `{error, message, status_code[, details]}`. */
module CoreExceptions {
  import opened Common

  /** A raised exception: `text` is `str(exc)`, `detail` is `exc.detail`
      when the exception has that attribute. */
  datatype Exc = Exc(text: string, detail: Option<Value>)

  /** A DRF response as produced by the stock handler. */
  class Response {
    var statusCode: int
    var data: Value

    constructor (statusCode: int, data: Value)
      ensures this.statusCode == statusCode && this.data == data
    {
      this.statusCode := statusCode;
      this.data := data;
    }
  }

  /** The body that replaces the stock handler's. */
  function ErrorBody(exc: Exc, statusCode: int): (body: map<string, Value>)
    ensures "details" in body <==> exc.detail.Some?
    ensures body.Keys == {"error", "message", "status_code"} + (if exc.detail.Some? then {"details"} else {})
    ensures body["error"] == VBool(true)
    ensures body["message"] == VStr(exc.text)
    ensures body["status_code"] == VInt(statusCode)
    ensures exc.detail.Some? ==> body["details"] == exc.detail.value
  {
    var base := map["error" := VBool(true), "message" := VStr(exc.text), "status_code" := VInt(statusCode)];
    if exc.detail.Some? then base["details" := exc.detail.value] else base
  }

  /** `custom_exception_handler(exc, context)`, where `response` is what
      DRF's own `exception_handler` returned (null for exceptions it does
      not handle). */
  method CustomExceptionHandler(exc: Exc, response: Response?) returns (r: Response?)
    modifies response
    ensures r == response
    ensures r != null ==> r.statusCode == old(r.statusCode)
    ensures r != null ==> r.data == VDict(ErrorBody(exc, r.statusCode))
  {
    if response != null {
      var customResponse := map[
        "error" := VBool(true),
        "message" := VStr(exc.text),
        "status_code" := VInt(response.statusCode)
      ];
      if exc.detail.Some? {
        customResponse := customResponse["details" := exc.detail.value];
      }
      response.data := VDict(customResponse);
    }
    r := response;
  }
}
