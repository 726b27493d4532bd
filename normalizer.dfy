/** `prepareN8NPayload`: turns the decoded selection into the event envelope
    sent downstream. It is total: every lookup falls back to a fixed value. */
module Normalizer {
  import opened PhpJson
  import opened Ambient

  const EventType := "city_route_selection"
  const DefaultSource := "telegram_web_app"
  const Unknown := "unknown"

  /** The `route` block of the envelope. */
  datatype Route = Route(
    originCountry: Json,
    originCountryCode: Json,
    originCity: Json,
    originCityCode: Json,
    originCityPopulation: Json,
    destinationCountry: Json,
    destinationCountryCode: Json,
    destinationCity: Json,
    destinationCityCode: Json,
    destinationCityPopulation: Json,
    displayText: Json,
    displayTextEn: Json)

  /** The `metadata` block of the envelope. */
  datatype Metadata = Metadata(
    ipAddress: Json,
    userAgent: string,
    serverName: string,
    processedAt: string)

  /** The envelope. The optional parts are the keys the source inserts only
      under a condition; `routeTypeDetailed` is a key of the envelope itself,
      beside `route` and not inside it. */
  datatype Envelope = Envelope(
    eventType: string,
    timestamp: string,
    serverTime: int,
    source: Json,
    action: Json,
    routeType: Json,
    route: Option<Route>,
    routeTypeDetailed: Option<string>,
    telegramUser: Option<Json>,
    metadata: Metadata)

  /** `isset($data['origin']) && isset($data['destination'])`. */
  predicate HasRoute(data: Json)
  {
    Get(data, "origin").Some? && Get(data, "destination").Some?
  }

  /** `isset($data['telegram_user'])`. */
  predicate HasTelegramUser(data: Json)
  {
    Get(data, "telegram_user").Some?
  }

  /** `$data[k0][k1][k2] ?? 'unknown'`: a displayed route field. */
  function Shown(data: Json, k0: string, k1: string, k2: string): Json
  {
    Coalesce(Path(data, [k0, k1, k2]), JStr(Unknown))
  }

  /** `$data[side]['country']['code'] ?? ''`: the code the route type compares,
      whose default differs from the displayed code's. */
  function ComparedCode(data: Json, side: string): (r: Json)
    ensures r != JNull
    ensures r == Coalesce(Nested(data, side, "country", "code"), JStr(""))
  {
    PathThree(data, side, "country", "code");
    Coalesce(Path(data, [side, "country", "code"]), JStr(""))
  }

  /** The `route` block, field by field as the source writes it: no field
      of it is null. */
  function RouteOf(data: Json): (r: Route)
    ensures RouteNonNull(r)
  {
    Route(
      Shown(data, "origin", "country", "name"),
      Shown(data, "origin", "country", "code"),
      Shown(data, "origin", "city", "name"),
      Shown(data, "origin", "city", "code"),
      Shown(data, "origin", "city", "population"),
      Shown(data, "destination", "country", "name"),
      Shown(data, "destination", "country", "code"),
      Shown(data, "destination", "city", "name"),
      Shown(data, "destination", "city", "code"),
      Shown(data, "destination", "city", "population"),
      Coalesce(Get(data, "display_text"), JStr("")),
      Coalesce(Get(data, "display_text_en"), JStr("")))
  }

  /** The derived route type: strict equality of the two compared codes,
      each read level by level with "" for an unset code. */
  function RouteTypeDetailed(data: Json): (r: string)
    ensures r == "domestic" || r == "international"
    ensures r == "domestic" <==>
      Coalesce(Nested(data, "origin", "country", "code"), JStr("")) ==
      Coalesce(Nested(data, "destination", "country", "code"), JStr(""))
  {
    if ComparedCode(data, "origin") == ComparedCode(data, "destination") then "domestic" else "international"
  }

  /** The `metadata` block: `ip_address` is never null, and it is "unknown"
      only when neither the input nor the server supplies an address. */
  function MetadataOf(data: Json, server: Server, clock: Clock): (r: Metadata)
    ensures r.ipAddress != JNull
    ensures Get(data, "ip_address").None? && server.remoteAddr.None? ==> r.ipAddress == JStr(Unknown)
    ensures Get(data, "ip_address").None? && server.remoteAddr.Some? ==> r.ipAddress == JStr(server.remoteAddr.value)
    ensures r.processedAt == clock.processedAt
  {
    Metadata(
      Coalesce(Get(data, "ip_address"),
               JStr(if server.remoteAddr.Some? then server.remoteAddr.value else Unknown)),
      if server.userAgent.Some? then server.userAgent.value else Unknown,
      if server.serverName.Some? then server.serverName.value else Unknown,
      clock.processedAt)
  }

  /** No field of a route holds null. */
  predicate RouteNonNull(route: Route)
  {
    && route.originCountry != JNull && route.originCountryCode != JNull
    && route.originCity != JNull && route.originCityCode != JNull
    && route.originCityPopulation != JNull
    && route.destinationCountry != JNull && route.destinationCountryCode != JNull
    && route.destinationCity != JNull && route.destinationCityCode != JNull
    && route.destinationCityPopulation != JNull
    && route.displayText != JNull && route.displayTextEn != JNull
  }

  /** Every field the envelope documents is populated: no value that has a
      default is null, and the optional parts are either absent or non-null. */
  predicate Populated(e: Envelope)
  {
    && e.source != JNull && e.action != JNull && e.routeType != JNull
    && (e.route.Some? ==> RouteNonNull(e.route.value))
    && (e.telegramUser.Some? ==> e.telegramUser.value != JNull)
    && e.metadata.ipAddress != JNull
  }

  /** The envelope, built by the same successive insertions as the source:
      the base keys, then `route` with `route_type_detailed`, then
      `telegram_user`, then `metadata`. */
  function PrepareN8NPayload(data: Json, server: Server, clock: Clock): (r: Envelope)
    ensures r.eventType == EventType
    ensures Populated(r)
    ensures r.route.Some? <==> HasRoute(data)
    ensures r.routeTypeDetailed.Some? <==> r.route.Some?
    ensures r.routeTypeDetailed.Some? ==>
      (r.routeTypeDetailed.value == "domestic" || r.routeTypeDetailed.value == "international")
    ensures r.telegramUser.Some? <==> HasTelegramUser(data)
  {
    var payload := Envelope(
      EventType, clock.payloadTime, clock.serverTime,
      Coalesce(Get(data, "source"), JStr(DefaultSource)),
      Coalesce(Get(data, "action"), JStr(Unknown)),
      Coalesce(Get(data, "route_type"), JStr(Unknown)),
      None, None, None, Metadata(JStr(Unknown), Unknown, Unknown, ""));
    var payload := if HasRoute(data) then
                     payload.(route := Some(RouteOf(data)), routeTypeDetailed := Some(RouteTypeDetailed(data)))
                   else payload;
    var payload := if HasTelegramUser(data) then
                     payload.(telegramUser := Some(Get(data, "telegram_user").value))
                   else payload;
    payload.(metadata := MetadataOf(data, server, clock))
  }

  /** `source`, `action` and `route_type` are the input's value when it is
      set and non-null, else their defaults; the times are the clock's. */
  lemma EnvelopeFields(data: Json, server: Server, clock: Clock)
    ensures var r := PrepareN8NPayload(data, server, clock);
      && r.timestamp == clock.payloadTime
      && r.serverTime == clock.serverTime
      && r.source == (if Get(data, "source").Some? then data.fields["source"] else JStr(DefaultSource))
      && r.action == (if Get(data, "action").Some? then data.fields["action"] else JStr(Unknown))
      && r.routeType == (if Get(data, "route_type").Some? then data.fields["route_type"] else JStr(Unknown))
  {
  }

  /** With a route, each of its ten country and city fields is the input
      found at its path, or "unknown" when the path is unset; the display
      texts are the input's or "". The path is read level by level, as
      `isset` does. */
  lemma RouteFieldsFromInput(data: Json, server: Server, clock: Clock)
    requires HasRoute(data)
    ensures var route := PrepareN8NPayload(data, server, clock).route.value;
      && route.originCountry == Coalesce(Nested(data, "origin", "country", "name"), JStr(Unknown))
      && route.originCountryCode == Coalesce(Nested(data, "origin", "country", "code"), JStr(Unknown))
      && route.originCity == Coalesce(Nested(data, "origin", "city", "name"), JStr(Unknown))
      && route.originCityCode == Coalesce(Nested(data, "origin", "city", "code"), JStr(Unknown))
      && route.originCityPopulation == Coalesce(Nested(data, "origin", "city", "population"), JStr(Unknown))
      && route.destinationCountry == Coalesce(Nested(data, "destination", "country", "name"), JStr(Unknown))
      && route.destinationCountryCode == Coalesce(Nested(data, "destination", "country", "code"), JStr(Unknown))
      && route.destinationCity == Coalesce(Nested(data, "destination", "city", "name"), JStr(Unknown))
      && route.destinationCityCode == Coalesce(Nested(data, "destination", "city", "code"), JStr(Unknown))
      && route.destinationCityPopulation == Coalesce(Nested(data, "destination", "city", "population"), JStr(Unknown))
      && route.displayText == (if Get(data, "display_text").Some? then data.fields["display_text"] else JStr(""))
      && route.displayTextEn == (if Get(data, "display_text_en").Some? then data.fields["display_text_en"] else JStr(""))
  {
    var route := PrepareN8NPayload(data, server, clock).route.value;
    assert route == RouteOf(data);
    ShownLevelByLevel(data, "origin", "country", "name");
    ShownLevelByLevel(data, "origin", "country", "code");
    ShownLevelByLevel(data, "origin", "city", "name");
    ShownLevelByLevel(data, "origin", "city", "code");
    ShownLevelByLevel(data, "origin", "city", "population");
    ShownLevelByLevel(data, "destination", "country", "name");
    ShownLevelByLevel(data, "destination", "country", "code");
    ShownLevelByLevel(data, "destination", "city", "name");
    ShownLevelByLevel(data, "destination", "city", "code");
    ShownLevelByLevel(data, "destination", "city", "population");
  }

  lemma ShownLevelByLevel(data: Json, k0: string, k1: string, k2: string)
    ensures Shown(data, k0, k1, k2) == Coalesce(Nested(data, k0, k1, k2), JStr(Unknown))
  {
    PathThree(data, k0, k1, k2);
  }

  /** `route_type_detailed` is "domestic" iff the two compared codes are
      strictly equal, and is present exactly when `route` is. */
  lemma RouteTypeDetailedIff(data: Json, server: Server, clock: Clock)
    ensures var r := PrepareN8NPayload(data, server, clock);
      && (r.routeTypeDetailed.Some? <==> HasRoute(data))
      && (HasRoute(data) ==>
            (r.routeTypeDetailed.value == "domestic" <==> ComparedCode(data, "origin") == ComparedCode(data, "destination")))
  {
  }

  /** `route` is present iff the input is an object whose `origin` and
      `destination` are both present and non-null. */
  lemma RoutePresence(data: Json, server: Server, clock: Clock)
    ensures PrepareN8NPayload(data, server, clock).route.Some? <==>
      data.JObj? && "origin" in data.fields && data.fields["origin"] != JNull &&
      "destination" in data.fields && data.fields["destination"] != JNull
  {
  }

  /** Two missing country codes are shown as "unknown" but compared as "",
      so such a route is classified "domestic". */
  lemma MissingCodesAreDomestic(data: Json, server: Server, clock: Clock)
    requires HasRoute(data)
    requires Path(data, ["origin", "country", "code"]).None?
    requires Path(data, ["destination", "country", "code"]).None?
    ensures var r := PrepareN8NPayload(data, server, clock);
      && r.route.value.originCountryCode == JStr(Unknown)
      && r.route.value.destinationCountryCode == JStr(Unknown)
      && r.routeTypeDetailed == Some("domestic")
  {
  }

  /** Because the two defaults differ, a route can show equal country codes
      and still be "international": the origin code missing, the destination
      code the literal string "unknown". */
  lemma ShownCodesEqualYetInternational(server: Server, clock: Clock)
    ensures var data := JObj(map[
        "origin" := JObj(map["country" := JObj(map[])]),
        "destination" := JObj(map["country" := JObj(map["code" := JStr(Unknown)])])]);
      var r := PrepareN8NPayload(data, server, clock);
      && r.route.Some?
      && r.route.value.originCountryCode == r.route.value.destinationCountryCode
      && r.routeTypeDetailed == Some("international")
  {
    var o := JObj(map["country" := JObj(map[])]);
    var d := JObj(map["country" := JObj(map["code" := JStr(Unknown)])]);
    var data := JObj(map["origin" := o, "destination" := d]);
    assert "origin" != "destination";
    PathThree(data, "origin", "country", "code");
    PathThree(data, "destination", "country", "code");
    assert Path(data, ["origin", "country", "code"]).None?;
    assert Path(data, ["destination", "country", "code"]) == Some(JStr(Unknown));
    assert JStr("") != JStr(Unknown);
  }

  /** `telegram_user` is copied unchanged iff it is set. */
  lemma TelegramUserPassThrough(data: Json, server: Server, clock: Clock)
    ensures var r := PrepareN8NPayload(data, server, clock);
      && (r.telegramUser.Some? <==> HasTelegramUser(data))
      && (r.telegramUser.Some? ==> r.telegramUser.value == data.fields["telegram_user"])
  {
  }

  /** `metadata.ip_address` is the first set one of the input's `ip_address`,
      `REMOTE_ADDR` and "unknown"; `user_agent` and `server_name` come from
      the server or are "unknown". */
  lemma MetadataSources(data: Json, server: Server, clock: Clock)
    ensures var m := PrepareN8NPayload(data, server, clock).metadata;
      && m.ipAddress == (if Get(data, "ip_address").Some? then data.fields["ip_address"]
                         else if server.remoteAddr.Some? then JStr(server.remoteAddr.value)
                         else JStr(Unknown))
      && m.userAgent == (if server.userAgent.Some? then server.userAgent.value else Unknown)
      && m.serverName == (if server.serverName.Some? then server.serverName.value else Unknown)
      && m.processedAt == clock.processedAt
  {
  }

  /** The envelope depends on the clock only through `timestamp`,
      `server_time` and `metadata.processed_at`: normalising the same input
      twice gives the same envelope up to those three fields. */
  lemma ClockOnlyChangesTimes(data: Json, server: Server, c1: Clock, c2: Clock)
    ensures var r1 := PrepareN8NPayload(data, server, c1);
      var r2 := PrepareN8NPayload(data, server, c2);
      r1.(timestamp := "", serverTime := 0, metadata := r1.metadata.(processedAt := "")) ==
      r2.(timestamp := "", serverTime := 0, metadata := r2.metadata.(processedAt := ""))
  {
  }
}
