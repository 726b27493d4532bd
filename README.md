# City-selection webhook relay, modelled in Dafny

The repository holds one PHP script, `webhook.php`. It accepts a JSON
description of an origin/destination city selection from a chat-bot mini
app. It normalises that description into an event envelope and forwards the
envelope to one configured n8n webhook. It then answers the caller with a
JSON document saying whether the forwarding succeeded.

This project models the script's request pipeline as pure functions. The
script has no loops and no state that outlives a request:

- `php_json.dfy` (module `PhpJson`) covers the PHP value semantics the
  script relies on. Decoded JSON values are the `Json` datatype, objects as
  maps. It defines truthiness (`if ($x)`, `!$x`, `empty()`), `isset` and
  `??` on nested lookups (`Get`, `Path`, `Coalesce`), `?:` (`Elvis`) and
  `strpos(...) !== false` (`Contains`).
- `decimal.dfy` (module `Decimal`) renders an integer as PHP's string
  interpolation does (`"HTTP $httpCode"`). It also parses the result back.
- `ambient.dfy` (module `Ambient`) holds the `$_SERVER` fields and the
  clock readings (`date()`, `time()`, `uniqid()`). They are parameters.
- `normalizer.dfy` (module `Normalizer`) is `prepareN8NPayload`. The
  envelope is a record, `Envelope`, whose optional parts are the keys the
  source adds only under a condition.
- `delivery.dfy` (module `Delivery`) is the classification at the end of
  `sendToN8N`. The transfer's three results (error string, status code, raw
  body) are the input.
- `webhook.dfy` (module `Webhook`) is the top-level script.
  `HandleRequest` returns the HTTP status, what was echoed, and a trace of
  side effects. The side effects are the inbound log, the outbound POST and
  the delivery log. `json_decode` and the transfer are function parameters.
  So "delivery is never invoked" means "no `Send` in the trace".

Points where the script's behaviour is easy to misread:

- The GET test page at the end of the script is never served. Every method
  other than POST and OPTIONS exits with 405 first (webhook.php:24-28). The
  page's check is modelled where the script has it, and the model proves it
  never holds.
- The inbound payload is logged (webhook.php:42) before the configuration
  check (webhook.php:48). So a "not configured" answer still leaves a log
  entry.
- `route_type_detailed` is a key of the envelope itself, beside `route`,
  not inside it (webhook.php:121,123).
- The URL is a string checked exactly as line 48 checks it. `empty()` also
  holds of the string "0", so "0" counts as unconfigured.
- The empty object `{}` decodes to an empty PHP array, which is falsy. So
  it is rejected with 400 (webhook.php:35).

## Model

| member | source | states |
|---|---|---|
| PhpJson.TruthyString | webhook.php:178 | defines PHP truthiness of a string; characterised as: at least two characters, or one character other than '0' |
| PhpJson.Truthy | webhook.php:35 | defines PHP truthiness of a decoded value; characterised as: not one of the seven falsy values null, false, 0, "", "0", [] and {} |
| PhpJson.Get | webhook.php:98 | `isset($v[$k])` and the lookup it guards are the one-key case of the separately defined nested lookup `Path` |
| PhpJson.Path | webhook.php:100-110 | a nested lookup under `??` never yields null: a missing key, a null on the way or a non-object gives nothing |
| PhpJson.PathConcat | webhook.php:100-110 | looking up a path `a + b` is looking up `a`, then `b` in what was found; an unset prefix makes the whole lookup unset |
| PhpJson.PathThree | webhook.php:100-110 | a three-key lookup equals three successive `isset` checks, one level at a time |
| PhpJson.Coalesce | webhook.php:92-94 | the definition of `??`; its effect on the envelope is pinned by `EnvelopeFields`, `RouteFieldsFromInput` and `MetadataSources` |
| PhpJson.Elvis | webhook.php:186 | the definition of `?:`; its effect on the delivered response is pinned by `Classify`'s contract |
| PhpJson.Contains | webhook.php:48 | defines `strpos(...) !== false` by index; characterised as: the string splits as a prefix, the pattern and a suffix |
| PhpJson.NotContainsFirstChar | webhook.php:48 | a pattern whose first character does not occur in a string is not found by `strpos` |
| Decimal.NatToString | webhook.php:193 | the decimal digits of a natural number: at least one digit, all digits, no leading zero |
| Decimal.IntToString | webhook.php:193 | an integer's decimal string starts with '-' exactly when the integer is negative |
| Decimal.ParseNatToString | webhook.php:193 | reading the digits of `n` back gives `n` |
| Decimal.IntToStringRoundTrip | webhook.php:193 | reading back the rendered integer gives the integer |
| Decimal.IntToStringInjective | webhook.php:193 | distinct status codes give distinct strings |
| Delivery.HttpErrorMessage | webhook.php:193 | defines the message "HTTP <code>"; the status code can always be read back out of it |
| Delivery.Classify | webhook.php:178-195 | a truthy error string gives failure with that error; otherwise success iff 200 <= code < 400, with the decoded body, or the raw body when the decoded value is falsy; otherwise failure with exactly the message "HTTP " followed by the code's decimal string, which reads back as the code, with the raw body kept |
| Delivery.FalsyErrorIgnored | webhook.php:178 | the error string "0" is falsy, so it is not a transport error and the status code decides |
| Delivery.Status500Message | webhook.php:191-195 | status 500 without a transport error gives the failure "HTTP 500" |
| Normalizer.ComparedCode | webhook.php:117-118 | defines the code the route type compares; it is never null, and equals the level-by-level lookup of the country code, or "" when that is unset |
| Normalizer.RouteOf | webhook.php:99-114 | defines the `route` block; none of its twelve fields is null; their values are pinned by `RouteFieldsFromInput` |
| Normalizer.RouteTypeDetailed | webhook.php:116-124 | the route type is "domestic" iff the two country codes, each read level by level with "" for an unset code, are equal, else "international" |
| Normalizer.MetadataOf | webhook.php:133-138 | defines the `metadata` block; `ip_address` is never null, falls back to `REMOTE_ADDR` and then "unknown"; `processed_at` is the clock's; fully pinned by `MetadataSources` |
| Normalizer.PrepareN8NPayload | webhook.php:87-141 | the fixed event type; no defaulted field is null; `route` iff both origin and destination are set; `route_type_detailed` iff `route`, and only "domestic" or "international"; `telegram_user` iff set |
| Normalizer.EnvelopeFields | webhook.php:88-95 | `source`, `action` and `route_type` are the input values when set and non-null, else "telegram_web_app", "unknown", "unknown"; the times come from the clock |
| Normalizer.RouteFieldsFromInput | webhook.php:99-114 | each of the ten route fields equals the input at its path, read level by level, or "unknown"; the display texts are the input's or "" |
| Normalizer.ShownLevelByLevel | webhook.php:100-110 | a displayed route field is the level-by-level lookup, or "unknown" |
| Normalizer.RouteTypeDetailedIff | webhook.php:116-124 | `route_type_detailed` is present exactly when `route` is, and is "domestic" iff the compared codes are strictly equal |
| Normalizer.RoutePresence | webhook.php:98 | `route` is present iff the input is an object whose `origin` and `destination` are present and non-null |
| Normalizer.MissingCodesAreDomestic | webhook.php:101-121 | two missing country codes are shown as "unknown" but compared as "", so the route is "domestic" |
| Normalizer.ShownCodesEqualYetInternational | webhook.php:101-123 | with the origin code missing and the destination code the string "unknown", both codes are shown equal yet the route is "international" |
| Normalizer.TelegramUserPassThrough | webhook.php:128-130 | `telegram_user` is present iff set in the input, and is then copied unchanged |
| Normalizer.MetadataSources | webhook.php:133-138 | `ip_address` is the first set one of the input's `ip_address`, `REMOTE_ADDR` and "unknown"; `user_agent` and `server_name` come from the server or are "unknown" |
| Normalizer.ClockOnlyChangesTimes | webhook.php:87-141 | two normalisations of the same input differ at most in `timestamp`, `server_time` and `metadata.processed_at` |
| Webhook.Sends | webhook.php:63 | the outbound POSTs of a trace: only `Send` effects of the trace, and every one of them |
| Webhook.UrlUnconfigured | webhook.php:48 | the URL is unconfigured iff it is "", "0", or contains "your-n8n-domain" |
| Webhook.Accepted | webhook.php:18-39 | a request passes validation iff it is a POST whose body decodes to a value outside the seven falsy values |
| Webhook.ErrorBody | webhook.php:26-37 | the 405 and 400 documents have `success` false |
| Webhook.ConfigErrorBody | webhook.php:49-54 | the "not configured" document has `success` false |
| Webhook.SuccessBody | webhook.php:67-73 | the success document has `success` true |
| Webhook.FailureBody | webhook.php:75-81 | the delivery-failure document has `success` false |
| Webhook.Forward | webhook.php:59-82 | an accepted, configured request gets status 200 and one document; the POST of the normalised envelope is followed by the delivery log of the transfer's results; `success` is whether the classification succeeded |
| Webhook.HandleRequest | webhook.php:18-82 | never the test page; status 200, 400 or 405; no output iff OPTIONS; every document has a boolean `success`; effects iff accepted, the inbound log first; exactly one POST, of the normalised envelope, iff accepted and the URL configured; `success` true iff delivered |
| Webhook.OptionsPreflight | webhook.php:18-21 | OPTIONS gets status 200, no body, no log and no delivery |
| Webhook.OtherMethodsRejected | webhook.php:24-28 | every other non-POST method, GET included, gets 405 with `{success:false, error:"Only POST method allowed"}` and nothing else |
| Webhook.InvalidJsonRejected | webhook.php:32-39 | a POST whose body fails to decode or decodes to a falsy value gets 400 with `{success:false, error:"Invalid JSON data"}` and nothing else |
| Webhook.EmptyObjectRejected | webhook.php:35 | a POST of `{}` gets 400 |
| Webhook.UnconfiguredUrlNotDelivered | webhook.php:42-57 | with an unconfigured URL, an accepted request gets the "not configured" document with exactly the keys `success`, `error`, `received_data` and `timestamp`, echoing the input and the time; it is logged and never delivered |
| Webhook.DeliveredResponse | webhook.php:66-73 | a delivered request's document holds the message, the downstream response, the time and a route id "ROUTE_" + the unique part |
| Webhook.FailedDeliveryResponse | webhook.php:74-82 | a failed delivery still gets status 200, with the failure reason as `n8n_error`, the input echoed and the response time as `timestamp` |
| Webhook.DownstreamStatus500 | webhook.php:63-82 | a downstream 500 without a transport error reaches the caller as `n8n_error` "HTTP 500" |
| Webhook.ShippedUrlConfigured | webhook.php:45-48 | the shipped URL passes the configuration check |
| Webhook.ShippedUrlAlwaysForwards | webhook.php:45-63 | with the shipped URL every accepted request is posted downstream once, with its normalised envelope |

## Left out

- The HTTP transfer (webhook.php:147-167) is a network call. Its three results are a function parameter, `send`. Its options (30-second timeout, certificate and host checks, headers, user agent) are constants with no logic.
- `json_encode` and `json_decode` are library serialisation. Decoding is a function parameter, `decode`, with None for its null result. The envelope is sent as a record, so its serialised key names and order are not modelled.
- `logData` (webhook.php:201-208) appends to a file. The model keeps only its calls, in order, with their arguments. The delivery log entry leaves out `payload_size`, which needs `json_encode`. The log text (`print_r` layout, separator line) is not modelled.
- `header()` calls (webhook.php:12-15), `error_reporting` and `ini_set` are transport settings with constant values.
- `date()`, `time()` and `uniqid()` are nondeterministic. Each call site reads its value from a `Clock` parameter.
- The HTML and script of the test page (webhook.php:211-330) are user interface. The model keeps only the condition that guards the page and proves the page is never echoed.
- JSON numbers with a fraction (PHP floats) are not modelled. `Json` has integers only, so a body of `0.0` is not covered.
- Normalizer.RouteTypeDetailed: compares codes with Dafny equality, which differs from PHP's `===` on array-valued codes in two ways. It ignores key order, which `===` compares. And a JSON list and an object with keys "0".."n-1" decode to one PHP array but are two different `Json` values: `{}` against `[]`, or `["a"]` against `{"0":"a"}`, is "domestic" in PHP and "international" in the model.
- `curl_exec` returning `false` is not modelled. The raw body is always a string.
