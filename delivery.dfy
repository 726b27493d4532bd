/** The tail of `sendToN8N`: classifying what the HTTP transfer returned
    into a delivery outcome. The transfer itself is not modelled; its three
    results are the input. */
module Delivery {
  import opened PhpJson
  import opened Decimal

  /** What the transfer reports: `curl_error` ("" when none), the
      `CURLINFO_HTTP_CODE` and the raw response body. */
  datatype TransportResult = TransportResult(error: string, httpCode: int, body: string)

  /** The array `sendToN8N` returns: success with the response and code, or
      failure with an error message and, for an HTTP failure, the raw body. */
  datatype DeliveryOutcome =
    | Delivered(response: Json, httpCode: int)
    | Failed(error: string, rawBody: Option<string>)

  /** Reads the status code back out of an HTTP-level failure message. */
  function HttpErrorCode(message: string): Option<int>
  {
    if |message| >= 5 && message[..5] == "HTTP " then ParseInt(message[5..]) else None
  }

  /** The message of an HTTP-level failure, `"HTTP $httpCode"`: the code can
      always be read back out of it. */
  function HttpErrorMessage(code: int): (m: string)
    ensures HttpErrorCode(m) == Some(code)
  {
    var m := "HTTP " + IntToString(code);
    assert m[..5] == "HTTP " && m[5..] == IntToString(code);
    IntToStringRoundTrip(code);
    m
  }

  /** A transport error wins; else a status in [200, 400) is success, with
      the decoded body, or the raw body when the decoded value is falsy;
      else the failure is `"HTTP <code>"` with the raw body kept. `decode`
      is `json_decode($text, true)`, None standing for its null. */
  function Classify(t: TransportResult, decode: string -> Option<Json>): (r: DeliveryOutcome)
    ensures TruthyString(t.error) ==> r == Failed(t.error, None)
    ensures r.Delivered? <==> !TruthyString(t.error) && 200 <= t.httpCode < 400
    ensures r.Delivered? ==> r.httpCode == t.httpCode
    ensures r.Delivered? ==>
      if decode(t.body).Some? && Truthy(decode(t.body).value) then Some(r.response) == decode(t.body)
      else r.response == JStr(t.body)
    ensures r.Failed? && !TruthyString(t.error) ==>
      r.error == "HTTP " + IntToString(t.httpCode) && r.rawBody == Some(t.body)
    ensures r.Failed? && !TruthyString(t.error) ==> HttpErrorCode(r.error) == Some(t.httpCode)
  {
    if TruthyString(t.error) then
      Failed(t.error, None)
    else if 200 <= t.httpCode && t.httpCode < 400 then
      var decoded := decode(t.body);
      Delivered(Elvis(if decoded.Some? then decoded.value else JNull, JStr(t.body)), t.httpCode)
    else
      Failed(HttpErrorMessage(t.httpCode), Some(t.body))
  }

  /** An error string PHP reads as false, such as "0", does not count as a
      transport error: the status code decides. */
  lemma FalsyErrorIgnored(code: int, body: string, decode: string -> Option<Json>)
    ensures Classify(TransportResult("0", code, body), decode).Delivered? <==> 200 <= code < 400
  {
  }

  /** A transfer that returned status 500 fails with "HTTP 500". */
  lemma Status500Message(body: string, decode: string -> Option<Json>)
    ensures Classify(TransportResult("", 500, body), decode) == Failed("HTTP 500", Some(body))
  {
  }
}
