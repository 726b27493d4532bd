/** The request handler at the top level of webhook.php: method and body
    validation, the configuration check, normalisation, delivery and the
    shaping of the JSON response. */
module Webhook {
  import opened PhpJson
  import opened Ambient
  import opened Normalizer
  import opened Delivery

  /** The downstream URL the repository ships with. */
  const N8nWebhookUrl := "https://aistudio.didbi.com/webhook/form/route"

  /** The marker of the placeholder URL left in an unedited copy. */
  const PlaceholderMarker := "your-n8n-domain"

  /** `empty($url) || strpos($url, 'your-n8n-domain') !== false`; PHP's
      `empty` also holds of the string "0". */
  predicate UrlUnconfigured(url: string): (b: bool)
    ensures b <==> url == "" || url == "0" || exists x, y :: url == x + PlaceholderMarker + y
  {
    !TruthyString(url) || Contains(url, PlaceholderMarker)
  }

  /** The side effects of a request, in the order they happen: the two
      `logData` appends and the one outbound POST. */
  datatype Effect =
    | LogInbound(data: Json)
    | Send(url: string, payload: Envelope)
    | LogDelivery(url: string, httpCode: int, response: string, error: string)

  /** What the handler echoes: a JSON document, or the HTML test page. */
  datatype Output = JsonBody(value: Json) | HtmlTestPage

  /** The HTTP status, everything echoed, and the side effects. */
  datatype Response = Response(status: int, output: seq<Output>, effects: seq<Effect>)

  /** The outbound POSTs among the effects. */
  function Sends(effects: seq<Effect>): (r: seq<Effect>)
    ensures |r| <= |effects|
    ensures forall i :: 0 <= i < |r| ==> r[i].Send? && r[i] in effects
    ensures forall e :: e in effects && e.Send? ==> e in r
    decreases |effects|
  {
    if effects == [] then []
    else if effects[0].Send? then [effects[0]] + Sends(effects[1..])
    else Sends(effects[1..])
  }

  /** True when `v` is a JSON object whose `success` is `b`. */
  predicate SuccessIs(v: Json, b: bool)
  {
    v.JObj? && "success" in v.fields && v.fields["success"] == JBool(b)
  }

  function ErrorBody(error: string): (r: Json)
    ensures SuccessIs(r, false)
  {
    JObj(map["success" := JBool(false), "error" := JStr(error)])
  }

  function ConfigErrorBody(data: Json, time: string): (r: Json)
    ensures SuccessIs(r, false)
  {
    JObj(map[
      "success" := JBool(false),
      "error" := JStr("N8N webhook URL not configured"),
      "received_data" := data,
      "timestamp" := JStr(time)])
  }

  function SuccessBody(response: Json, time: string, routeId: string): (r: Json)
    ensures SuccessIs(r, true)
  {
    JObj(map[
      "success" := JBool(true),
      "message" := JStr("City route data sent to n8n successfully"),
      "n8n_response" := response,
      "timestamp" := JStr(time),
      "route_id" := JStr(routeId)])
  }

  function FailureBody(error: string, data: Json, time: string): (r: Json)
    ensures SuccessIs(r, false)
  {
    JObj(map[
      "success" := JBool(false),
      "error" := JStr("Failed to send city route to n8n"),
      "n8n_error" := JStr(error),
      "received_data" := data,
      "timestamp" := JStr(time)])
  }

  /** The request passes method and body validation: a POST whose body
      decodes to a truthy value. */
  predicate Accepted(server: Server, input: string, decode: string -> Option<Json>): (b: bool)
    ensures b <==> server.requestMethod == "POST" && decode(input).Some? && decode(input).value !in FalsyValues
  {
    server.requestMethod == "POST" && decode(input).Some? && Truthy(decode(input).value)
  }

  /** The request gets as far as the outbound POST. */
  predicate Delivers(server: Server, input: string, url: string, decode: string -> Option<Json>)
  {
    Accepted(server, input, decode) && !UrlUnconfigured(url)
  }

  /** The script from line 59 on, for an accepted request with a configured
      URL: normalise, send, log the transfer, answer, and then the test-page
      check at the end of the file, which a POST never satisfies. */
  function Forward(data: Json, server: Server, input: string, url: string, decode: string -> Option<Json>,
                   send: (string, Envelope) -> TransportResult, clock: Clock): (r: Response)
    requires server.requestMethod == "POST"
    ensures r.status == 200 && |r.output| == 1 && r.output[0].JsonBody?
    ensures var payload := PrepareN8NPayload(data, server, clock);
      var t := send(url, payload);
      && r.effects == [Send(url, payload), LogDelivery(url, t.httpCode, t.body, t.error)]
      && SuccessIs(r.output[0].value, Classify(t, decode).Delivered?)
  {
    var payload := PrepareN8NPayload(data, server, clock);
    var t := send(url, payload);
    var result := Classify(t, decode);
    var body := if result.Delivered? then SuccessBody(result.response, clock.responseTime, "ROUTE_" + clock.uniqueId)
                else FailureBody(result.error, data, clock.responseTime);
    var page := if !TruthyString(input) && server.requestMethod == "GET" then [HtmlTestPage] else [];
    assert page == [] by {
      assert "POST" != "GET";
    }
    Response(200, [JsonBody(body)] + page, [Send(url, payload), LogDelivery(url, t.httpCode, t.body, t.error)])
  }

  /** The whole script for one request. `input` is the raw body, `decode`
      is `json_decode($text, true)` and `send` is the HTTP transfer.
      Whatever the request, the test page is never echoed, the status is
      200, 400 or 405, every echoed document carries a boolean `success`, an
      accepted request is logged before anything else happens, and the one
      outbound POST happens exactly when the request is accepted and the
      URL configured, carrying the normalised envelope. */
  function HandleRequest(server: Server, input: string, url: string, decode: string -> Option<Json>,
                         send: (string, Envelope) -> TransportResult, clock: Clock): (r: Response)
    ensures HtmlTestPage !in r.output
    ensures r.status == 200 || r.status == 400 || r.status == 405
    ensures r.output == [] <==> server.requestMethod == "OPTIONS"
    ensures |r.output| <= 1
    ensures r.output != [] ==> r.output[0].JsonBody? && (SuccessIs(r.output[0].value, true) || SuccessIs(r.output[0].value, false))
    ensures r.effects != [] <==> Accepted(server, input, decode)
    ensures r.effects != [] ==> r.effects[0] == LogInbound(decode(input).value)
    ensures Sends(r.effects) ==
      if Delivers(server, input, url, decode)
      then [Send(url, PrepareN8NPayload(decode(input).value, server, clock))]
      else []
    ensures r.output != [] && SuccessIs(r.output[0].value, true) <==>
      Delivers(server, input, url, decode) &&
      Classify(send(url, PrepareN8NPayload(decode(input).value, server, clock)), decode).Delivered?
  {
    if server.requestMethod == "OPTIONS" then
      Response(200, [], [])
    else if server.requestMethod != "POST" then
      Response(405, [JsonBody(ErrorBody("Only POST method allowed"))], [])
    else
      var decoded := decode(input);
      if decoded.None? || !Truthy(decoded.value) then
        Response(400, [JsonBody(ErrorBody("Invalid JSON data"))], [])
      else
        var data := decoded.value;
        if UrlUnconfigured(url) then
          Response(200, [JsonBody(ConfigErrorBody(data, clock.responseTime))], [LogInbound(data)])
        else
          var rest := Forward(data, server, input, url, decode, send, clock);
          var effects := [LogInbound(data)] + rest.effects;
          assert Sends(effects) == Sends(rest.effects) by {
            assert effects[1..] == rest.effects;
          }
          assert Sends(rest.effects) == [rest.effects[0]] by {
            var e1 := rest.effects[1..];
            assert e1[1..] == [];
            assert Sends(e1) == [];
          }
          Response(rest.status, rest.output, effects)
  }

  /** A CORS preflight gets an empty 200 and is never logged, normalised or
      delivered. */
  lemma OptionsPreflight(server: Server, input: string, url: string, decode: string -> Option<Json>,
                         send: (string, Envelope) -> TransportResult, clock: Clock)
    requires server.requestMethod == "OPTIONS"
    ensures HandleRequest(server, input, url, decode, send, clock) == Response(200, [], [])
  {
  }

  /** Any method other than POST and OPTIONS, GET included, gets 405 and
      the "Only POST method allowed" document, and nothing else happens. */
  lemma OtherMethodsRejected(server: Server, input: string, url: string, decode: string -> Option<Json>,
                             send: (string, Envelope) -> TransportResult, clock: Clock)
    requires server.requestMethod != "OPTIONS" && server.requestMethod != "POST"
    ensures HandleRequest(server, input, url, decode, send, clock) ==
      Response(405, [JsonBody(JObj(map["success" := JBool(false), "error" := JStr("Only POST method allowed")]))], [])
  {
  }

  /** A POST whose body fails to decode, or decodes to a falsy value, gets
      400 and the "Invalid JSON data" document, and nothing else happens. */
  lemma InvalidJsonRejected(server: Server, input: string, url: string, decode: string -> Option<Json>,
                            send: (string, Envelope) -> TransportResult, clock: Clock)
    requires server.requestMethod == "POST"
    requires decode(input).None? || !Truthy(decode(input).value)
    ensures HandleRequest(server, input, url, decode, send, clock) ==
      Response(400, [JsonBody(JObj(map["success" := JBool(false), "error" := JStr("Invalid JSON data")]))], [])
  {
  }

  /** The empty object `{}` is falsy in PHP, so it is rejected as invalid. */
  lemma EmptyObjectRejected(server: Server, input: string, url: string, decode: string -> Option<Json>,
                            send: (string, Envelope) -> TransportResult, clock: Clock)
    requires server.requestMethod == "POST"
    requires decode(input) == Some(JObj(map[]))
    ensures HandleRequest(server, input, url, decode, send, clock).status == 400
  {
  }

  /** With an unconfigured URL an accepted request is answered with the
      "not configured" document echoing the input, is logged, and is never
      delivered. */
  lemma UnconfiguredUrlNotDelivered(server: Server, input: string, url: string, decode: string -> Option<Json>,
                                    send: (string, Envelope) -> TransportResult, clock: Clock)
    requires Accepted(server, input, decode) && UrlUnconfigured(url)
    ensures var r := HandleRequest(server, input, url, decode, send, clock);
      var body := r.output[0].value.fields;
      && r.status == 200 && |r.output| == 1
      && body.Keys == {"success", "error", "received_data", "timestamp"}
      && body["success"] == JBool(false)
      && body["error"] == JStr("N8N webhook URL not configured")
      && body["received_data"] == decode(input).value
      && body["timestamp"] == JStr(clock.responseTime)
      && r.effects == [LogInbound(decode(input).value)]
  {
  }

  /** A delivered request is answered with the downstream response and a
      route id made of the prefix "ROUTE_" and the unique part. */
  lemma DeliveredResponse(server: Server, input: string, url: string, decode: string -> Option<Json>,
                          send: (string, Envelope) -> TransportResult, clock: Clock)
    requires Delivers(server, input, url, decode)
    requires Classify(send(url, PrepareN8NPayload(decode(input).value, server, clock)), decode).Delivered?
    ensures var r := HandleRequest(server, input, url, decode, send, clock);
      var result := Classify(send(url, PrepareN8NPayload(decode(input).value, server, clock)), decode);
      var body := r.output[0].value.fields;
      && r.status == 200 && |r.output| == 1
      && body.Keys == {"success", "message", "n8n_response", "timestamp", "route_id"}
      && body["message"] == JStr("City route data sent to n8n successfully")
      && body["n8n_response"] == result.response
      && body["timestamp"] == JStr(clock.responseTime)
      && body["route_id"] == JStr("ROUTE_" + clock.uniqueId)
  {
  }

  /** A request whose delivery failed is still answered with status 200,
      carrying the failure reason as `n8n_error` and echoing the input. */
  lemma FailedDeliveryResponse(server: Server, input: string, url: string, decode: string -> Option<Json>,
                               send: (string, Envelope) -> TransportResult, clock: Clock)
    requires Delivers(server, input, url, decode)
    requires Classify(send(url, PrepareN8NPayload(decode(input).value, server, clock)), decode).Failed?
    ensures var r := HandleRequest(server, input, url, decode, send, clock);
      var result := Classify(send(url, PrepareN8NPayload(decode(input).value, server, clock)), decode);
      var body := r.output[0].value.fields;
      && r.status == 200 && |r.output| == 1
      && body.Keys == {"success", "error", "n8n_error", "received_data", "timestamp"}
      && body["success"] == JBool(false)
      && body["error"] == JStr("Failed to send city route to n8n")
      && body["n8n_error"] == JStr(result.error)
      && body["received_data"] == decode(input).value
      && body["timestamp"] == JStr(clock.responseTime)
  {
  }

  /** When the downstream answers 500 with no transport error, the caller
      sees `n8n_error` "HTTP 500". */
  lemma DownstreamStatus500(server: Server, input: string, url: string, decode: string -> Option<Json>,
                            send: (string, Envelope) -> TransportResult, clock: Clock)
    requires Delivers(server, input, url, decode)
    requires var t := send(url, PrepareN8NPayload(decode(input).value, server, clock));
      t.error == "" && t.httpCode == 500
    ensures HandleRequest(server, input, url, decode, send, clock).output[0].value.fields["n8n_error"] == JStr("HTTP 500")
  {
    var t := send(url, PrepareN8NPayload(decode(input).value, server, clock));
    Status500Message(t.body, decode);
    FailedDeliveryResponse(server, input, url, decode, send, clock);
  }

  /** The URL the repository ships with passes the configuration check. */
  lemma ShippedUrlConfigured()
    ensures !UrlUnconfigured(N8nWebhookUrl)
  {
    var a, b, c, d := "https://aist", "udio.didbi.c", "om/webhook/f", "orm/route";
    assert N8nWebhookUrl == a + b + c + d;
    assert 'y' !in a && 'y' !in b && 'y' !in c && 'y' !in d;
    NotContainsFirstChar(N8nWebhookUrl, PlaceholderMarker);
  }

  /** With the shipped URL, every accepted request is forwarded: the
      "not configured" answer cannot occur. */
  lemma ShippedUrlAlwaysForwards(server: Server, input: string, decode: string -> Option<Json>,
                                 send: (string, Envelope) -> TransportResult, clock: Clock)
    requires Accepted(server, input, decode)
    ensures Sends(HandleRequest(server, input, N8nWebhookUrl, decode, send, clock).effects) ==
      [Send(N8nWebhookUrl, PrepareN8NPayload(decode(input).value, server, clock))]
  {
    ShippedUrlConfigured();
  }
}
