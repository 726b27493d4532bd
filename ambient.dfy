/** The values the webhook reads from its surroundings instead of from the
    request body. They are parameters of the model rather than globals. */
module Ambient {
  import opened PhpJson

  /** The `$_SERVER` fields the webhook reads. `REQUEST_METHOD` is always
      set by the web server; the other three may be absent. */
  datatype Server = Server(
    requestMethod: string,
    remoteAddr: Option<string>,
    userAgent: Option<string>,
    serverName: Option<string>)

  /** One reading for each call of `date('Y-m-d H:i:s')`, `time()` and
      `uniqid()` on the path through the handler. Each call site reads the
      clock anew, so the readings need not agree. */
  datatype Clock = Clock(
    payloadTime: string,   // `timestamp` of the event envelope
    serverTime: int,       // `server_time` of the event envelope
    processedAt: string,   // `metadata.processed_at`
    responseTime: string,  // `timestamp` of the response body
    uniqueId: string)      // what `uniqid` appends to its prefix
}
