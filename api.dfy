/**
 * The LIFX cloud client: its exception hierarchy, the light record built from
 * the vendor's JSON, the classification of an HTTP exchange into a result, the
 * request bodies it sends and the ownership of its network session.
 *
 * HTTP, JSON decoding and the runtime are abstracted: what the network answered
 * to a request is an input (`Transport`), and what the client would send is an
 * output (`HttpRequest`).
 */
module Api {
  import opened Wrappers
  import opened Strings

  // ---------------------------------------------------------------------------
  // Exceptions
  // ---------------------------------------------------------------------------

  /** The three client exception classes: the base class and its two subclasses. */
  datatype ErrorKind = BaseError | AuthError | ConnectionError

  /** An exception a client call can raise. */
  datatype Exception =
    | LifxError(kind: ErrorKind, message: string)  // the client's own exception classes
    | KeyError(key: string)                        // a required key missing from a light object
    | TypeError(message: string)                   // iterating a body that is not a list

  /** Python's `isinstance(e, cls)` over the client's class hierarchy. */
  predicate IsInstance(e: Exception, cls: ErrorKind) {
    e.LifxError? && (cls == BaseError || e.kind == cls)
  }

  /** Both subclasses are caught by an `except` on the base class, and they do not overlap. */
  lemma Hierarchy(e: Exception)
    ensures IsInstance(e, AuthError) ==> IsInstance(e, BaseError)
    ensures IsInstance(e, ConnectionError) ==> IsInstance(e, BaseError)
    ensures !(IsInstance(e, AuthError) && IsInstance(e, ConnectionError))
    ensures IsInstance(e, BaseError) <==> e.LifxError?
  {
  }

  // ---------------------------------------------------------------------------
  // Classifying an HTTP exchange
  // ---------------------------------------------------------------------------

  /** What the network produced for one request; `body` is the already-decoded JSON. */
  datatype Transport<B> =
    | TimedOut                                   // the fixed timeout expired
    | ClientFailure(detail: string)              // a transport-level client error
    | Response(status: nat, text: string, body: B)

  /** What a request returns to its caller: a JSON value, nothing, or an exception. */
  datatype Outcome<B> = Json(value: B) | NoContent | Raised(error: Exception)

  /** The generic error message: a fixed prefix, the status in decimal, then the response text. */
  function ApiErrorMessage(status: nat, text: string): (m: string)
    ensures StartsWith(m, "API error ") && EndsWith(m, ": " + text)
    ensures |m| > 12 + |text| && m[10..|m| - |text| - 2] == NatToString(status)
  {
    var digits := NatToString(status);
    var m := "API error " + digits + ": " + text;
    assert m[..10] == "API error ";
    assert m[|m| - |text| - 2..] == ": " + text;
    assert m[10..|m| - |text| - 2] == digits;
    m
  }

  /** The status handling of a request, checked in the source's order. */
  function Classify<B>(t: Transport<B>): (o: Outcome<B>)
    ensures t.TimedOut? ==> o == Raised(LifxError(ConnectionError, "Request timed out"))
    ensures t.ClientFailure? ==> o == Raised(LifxError(ConnectionError, "Connection error: " + t.detail))
    ensures t.Response? && t.status == 401 ==> o == Raised(LifxError(AuthError, "Invalid access token"))
    ensures t.Response? && t.status == 403 ==> o == Raised(LifxError(AuthError, "Access forbidden"))
    ensures t.Response? && t.status == 207 ==> o == Json(t.body)
    ensures t.Response? && t.status >= 400 && t.status != 401 && t.status != 403 ==>
              o == Raised(LifxError(BaseError, ApiErrorMessage(t.status, t.text)))
    ensures t.Response? && t.status == 202 ==> o == NoContent
    ensures t.Response? && t.status < 400 && t.status != 202 ==> o == Json(t.body)
  {
    match t
    case TimedOut => Raised(LifxError(ConnectionError, "Request timed out"))
    case ClientFailure(detail) => Raised(LifxError(ConnectionError, "Connection error: " + detail))
    case Response(status, text, body) =>
      if status == 401 then Raised(LifxError(AuthError, "Invalid access token"))
      else if status == 403 then Raised(LifxError(AuthError, "Access forbidden"))
      else if status == 207 then Json(body)
      else if status >= 400 then Raised(LifxError(BaseError, ApiErrorMessage(status, text)))
      else if status == 202 then NoContent
      else Json(body)
  }

  /**
   * Summary of the taxonomy: a request fails exactly on a transport failure or a
   * status of 400 or more; the failure is an authentication error exactly for 401
   * and 403, and a connection error exactly for a transport failure; every
   * failure is one of the client's own exceptions.
   */
  lemma ClassifyTaxonomy<B>(t: Transport<B>)
    ensures Classify(t).Raised? <==> !t.Response? || t.status >= 400
    ensures Classify(t).Raised? ==> IsInstance(Classify(t).error, BaseError)
    ensures Classify(t).Raised? && IsInstance(Classify(t).error, AuthError) <==>
              t.Response? && (t.status == 401 || t.status == 403)
    ensures Classify(t).Raised? && IsInstance(Classify(t).error, ConnectionError) <==> !t.Response?
    ensures Classify(t) == NoContent <==> t.Response? && t.status == 202
  {
  }

  /** The generic error message determines the status it reports. */
  lemma ApiErrorMessageInjective(s1: nat, s2: nat, text: string)
    requires ApiErrorMessage(s1, text) == ApiErrorMessage(s2, text)
    ensures s1 == s2
  {
    var a, b := NatToString(s1), NatToString(s2);
    assert ("API error " + a + ": " + text)[10..|a| + 10] == a;
    assert ("API error " + b + ": " + text)[10..|b| + 10] == b;
    NatToStringInjective(s1, s2);
  }

  /** The test fixture for a server failure: status 500 reports "API error 500: …". */
  lemma ServerErrorExample<B>(body: B)
    ensures Classify(Response(500, "Internal Server Error", body))
         == Raised(LifxError(BaseError, "API error 500: Internal Server Error"))
  {
    var text := "Internal Server Error";
    assert ApiErrorMessage(500, text) == "API error " + NatToString(500) + ": " + text;
    assert NatToString(500) == "500" by {
      assert NatToString(5) == "5";
      assert NatToString(50) == NatToString(5) + "0";
      assert NatToString(500) == NatToString(50) + "0";
    }
    assert ApiErrorMessage(500, text) == "API error 500: Internal Server Error";
  }

  // ---------------------------------------------------------------------------
  // The light record
  // ---------------------------------------------------------------------------

  /** The `color` object of a light; each key may be absent. */
  datatype ColorFields = ColorFields(hue: Option<real>, saturation: Option<real>, kelvin: Option<int>)

  /** The `capabilities` object inside `product`; each key may be absent. */
  datatype Capabilities = Capabilities(
    hasColor: Option<bool>,
    hasVariableColorTemp: Option<bool>,
    minKelvin: Option<int>,
    maxKelvin: Option<int>)

  /** The `product` object of a light; each key may be absent. */
  datatype Product = Product(name: Option<string>, capabilities: Option<Capabilities>)

  const NoColor := ColorFields(None, None, None)
  const NoCapabilities := Capabilities(None, None, None, None)
  const NoProduct := Product(None, None)

  const DefaultKelvin := 3500
  const DefaultMinKelvin := 2500
  const DefaultMaxKelvin := 9000

  /** One light object of the vendor's JSON listing, with every key optional. */
  datatype LightDict = LightDict(
    id: Option<string>,
    uuid: Option<string>,
    lightLabel: Option<string>,
    connected: Option<bool>,
    power: Option<string>,
    brightness: Option<real>,
    color: Option<ColorFields>,
    group: Option<map<string, string>>,
    location: Option<map<string, string>>,
    product: Option<Product>,
    lastSeen: Option<string>,
    secondsSinceSeen: Option<int>)

  /** A snapshot of one light; the nested objects are kept as received. */
  datatype LifxLight = LifxLight(
    id: string,
    uuid: string,
    lightLabel: string,
    connected: bool,
    power: string,
    brightness: real,
    color: ColorFields,
    group: map<string, string>,
    location: map<string, string>,
    product: Product,
    lastSeen: string,
    secondsSinceSeen: int)
  {
    predicate IsOn(): (on: bool)
      ensures on <==> power == "on"
      ensures on ==> power != "off"
    {
      power == "on"
    }

    function Hue(): (h: real)
      ensures color.hue.Some? ==> h == color.hue.value
      ensures color.hue.None? ==> h == 0.0
    {
      color.hue.GetOr(0.0)
    }

    function Saturation(): (s: real)
      ensures color.saturation.Some? ==> s == color.saturation.value
      ensures color.saturation.None? ==> s == 0.0
    {
      color.saturation.GetOr(0.0)
    }

    function Kelvin(): (k: int)
      ensures color.kelvin.Some? ==> k == color.kelvin.value
      ensures color.kelvin.None? ==> k == 3500
    {
      color.kelvin.GetOr(DefaultKelvin)
    }

    /** `product.get("capabilities", {})` */
    function Caps(): (c: Capabilities)
      ensures product.capabilities.Some? ==> c == product.capabilities.value
      ensures product.capabilities.None? ==> c == NoCapabilities
    {
      product.capabilities.GetOr(NoCapabilities)
    }

    predicate SupportsColor(): (b: bool)
      ensures Caps().hasColor.Some? ==> (b <==> Caps().hasColor.value)
      ensures Caps().hasColor.None? ==> !b
    {
      Caps().hasColor.GetOr(false)
    }

    predicate SupportsTemperature(): (b: bool)
      ensures Caps().hasVariableColorTemp.Some? ==> (b <==> Caps().hasVariableColorTemp.value)
      ensures Caps().hasVariableColorTemp.None? ==> !b
    {
      Caps().hasVariableColorTemp.GetOr(false)
    }

    function MinKelvin(): (k: int)
      ensures Caps().minKelvin.Some? ==> k == Caps().minKelvin.value
      ensures Caps().minKelvin.None? ==> k == 2500
    {
      Caps().minKelvin.GetOr(DefaultMinKelvin)
    }

    function MaxKelvin(): (k: int)
      ensures Caps().maxKelvin.Some? ==> k == Caps().maxKelvin.value
      ensures Caps().maxKelvin.None? ==> k == 9000
    {
      Caps().maxKelvin.GetOr(DefaultMaxKelvin)
    }
  }

  /**
   * Builds a light from a JSON object. `id` is read first, then `label`; a missing
   * one raises `KeyError` naming it. Every other key has a default.
   */
  function FromDict(d: LightDict): (r: Result<LifxLight, Exception>)
    ensures r.Ok? <==> d.id.Some? && d.lightLabel.Some?
    ensures d.id.None? ==> r == Err(KeyError("id"))
    ensures d.id.Some? && d.lightLabel.None? ==> r == Err(KeyError("label"))
    ensures r.Ok? ==> r.value.id == d.id.value && r.value.lightLabel == d.lightLabel.value
  {
    match d.id
    case None => Err(KeyError("id"))
    case Some(id) =>
      match d.lightLabel
      case None => Err(KeyError("label"))
      case Some(lbl) =>
        Ok(LifxLight(
          id,
          d.uuid.GetOr(id),
          lbl,
          d.connected.GetOr(false),
          d.power.GetOr("off"),
          d.brightness.GetOr(0.0),
          d.color.GetOr(NoColor),
          d.group.GetOr(map[]),
          d.location.GetOr(map[]),
          d.product.GetOr(NoProduct),
          d.lastSeen.GetOr(""),
          d.secondsSinceSeen.GetOr(0)))
  }

  /** Each optional key that is present is copied, and each absent one takes its documented default. */
  lemma FromDictDefaults(d: LightDict)
    requires d.id.Some? && d.lightLabel.Some?
    ensures var l := FromDict(d).value;
      && (d.uuid.Some? ==> l.uuid == d.uuid.value) && (d.uuid.None? ==> l.uuid == l.id)
      && (d.connected.Some? ==> l.connected == d.connected.value) && (d.connected.None? ==> !l.connected)
      && (d.power.Some? ==> l.power == d.power.value) && (d.power.None? ==> l.power == "off" && !l.IsOn())
      && (d.brightness.Some? ==> l.brightness == d.brightness.value) && (d.brightness.None? ==> l.brightness == 0.0)
      && (d.color.Some? ==> l.color == d.color.value) && (d.color.None? ==> l.color == NoColor)
      && (d.group.Some? ==> l.group == d.group.value) && (d.group.None? ==> l.group == map[])
      && (d.location.Some? ==> l.location == d.location.value) && (d.location.None? ==> l.location == map[])
      && (d.product.Some? ==> l.product == d.product.value) && (d.product.None? ==> l.product == NoProduct)
      && (d.lastSeen.Some? ==> l.lastSeen == d.lastSeen.value) && (d.lastSeen.None? ==> l.lastSeen == "")
      && (d.secondsSinceSeen.Some? ==> l.secondsSinceSeen == d.secondsSinceSeen.value)
      && (d.secondsSinceSeen.None? ==> l.secondsSinceSeen == 0)
  {
  }

  /** A light whose product has no capabilities object supports neither colour nor temperature and spans 2500..9000. */
  lemma AccessorDefaults(l: LifxLight)
    ensures l.product.capabilities.None? ==>
              !l.SupportsColor() && !l.SupportsTemperature() && l.MinKelvin() == 2500 && l.MaxKelvin() == 9000
  {
  }

  /** The JSON object that describes a light completely. */
  function ToDict(l: LifxLight): (d: LightDict)
    ensures d.id == Some(l.id) && d.lightLabel == Some(l.lightLabel)
  {
    LightDict(Some(l.id), Some(l.uuid), Some(l.lightLabel), Some(l.connected), Some(l.power),
              Some(l.brightness), Some(l.color), Some(l.group), Some(l.location), Some(l.product),
              Some(l.lastSeen), Some(l.secondsSinceSeen))
  }

  /** Every light is the record of its complete JSON object. */
  lemma FromDictToDict(l: LifxLight)
    ensures FromDict(ToDict(l)) == Ok(l)
  {
  }

  /** Building a record is idempotent: re-reading a record's own JSON gives the same record. */
  lemma FromDictIdempotent(d: LightDict)
    requires FromDict(d).Ok?
    ensures FromDict(ToDict(FromDict(d).value)) == FromDict(d)
  {
    FromDictToDict(FromDict(d).value);
  }

  // ---------------------------------------------------------------------------
  // Listing lights and validating the token
  // ---------------------------------------------------------------------------

  /**
   * The list comprehension over the listing: one record per element, in order;
   * the first element that cannot be built raises its error.
   */
  function FromDicts(ds: seq<LightDict>): (r: Result<seq<LifxLight>, Exception>)
    ensures r.Ok? <==> forall i :: 0 <= i < |ds| ==> FromDict(ds[i]).Ok?
    ensures r.Ok? ==> |r.value| == |ds| && forall i :: 0 <= i < |ds| ==> FromDict(ds[i]) == Ok(r.value[i])
    ensures r.Err? ==> exists i :: 0 <= i < |ds| && FromDict(ds[i]) == Err(r.error) &&
                                   forall j :: 0 <= j < i ==> FromDict(ds[j]).Ok?
    decreases |ds|
  {
    if ds == [] then Ok([])
    else
      match FromDict(ds[0])
      case Err(e) => Err(e)
      case Ok(light) =>
        match FromDicts(ds[1..])
        case Err(e) =>
          assert forall i :: 0 < i < |ds| ==> ds[1..][i - 1] == ds[i];
          Err(e)
        case Ok(rest) => Ok([light] + rest)
  }

  /** `list_lights` after the request: a non-list body (the `None` of a 202) cannot be iterated. */
  function LightsFromOutcome(o: Outcome<seq<LightDict>>): (r: Result<seq<LifxLight>, Exception>)
    ensures o.Raised? ==> r == Err(o.error)
    ensures o.NoContent? ==> r.Err? && r.error.TypeError?
    ensures o.Json? ==> r == FromDicts(o.value)
  {
    match o
    case Raised(e) => Err(e)
    case NoContent => Err(TypeError("'NoneType' object is not iterable"))
    case Json(ds) => FromDicts(ds)
  }

  /** An empty listing gives no lights, and a listing of complete objects gives their records in order. */
  lemma ListingOfCompleteObjects(ls: seq<LifxLight>)
    ensures LightsFromOutcome(Json(seq(|ls|, i requires 0 <= i < |ls| => ToDict(ls[i])))) == Ok(ls)
  {
    var ds := seq(|ls|, i requires 0 <= i < |ls| => ToDict(ls[i]));
    var r := FromDicts(ds);
    forall i | 0 <= i < |ds| ensures FromDict(ds[i]) == Ok(ls[i]) {
      FromDictToDict(ls[i]);
    }
    assert r.Ok?;
    assert r.value == ls;
  }

  /** `validate_token`: an authentication error means "invalid"; every other error propagates. */
  function TokenValidity(listed: Result<seq<LifxLight>, Exception>): (r: Result<bool, Exception>)
    ensures r == Ok(true) <==> listed.Ok?
    ensures r == Ok(false) <==> listed.Err? && IsInstance(listed.error, AuthError)
    ensures r.Err? <==> listed.Err? && !IsInstance(listed.error, AuthError)
    ensures r.Err? ==> r.error == listed.error
  {
    match listed
    case Ok(_) => Ok(true)
    case Err(e) => if IsInstance(e, AuthError) then Ok(false) else Err(e)
  }

  /**
   * From the network answer to the verdict: the token is reported invalid exactly
   * on a 401 or 403; connection and generic API errors propagate.
   */
  lemma TokenValidityOfTransport(t: Transport<seq<LightDict>>)
    ensures TokenValidity(LightsFromOutcome(Classify(t))) == Ok(false) <==>
              t.Response? && (t.status == 401 || t.status == 403)
    ensures !t.Response? ==> TokenValidity(LightsFromOutcome(Classify(t))).Err?
    ensures t.Response? && t.status >= 400 && t.status != 401 && t.status != 403 ==>
              TokenValidity(LightsFromOutcome(Classify(t))) ==
              Err(LifxError(BaseError, ApiErrorMessage(t.status, t.text)))
  {
    ClassifyTaxonomy(t);
  }

  // ---------------------------------------------------------------------------
  // Requests
  // ---------------------------------------------------------------------------

  datatype HttpMethod = GET | PUT | POST

  /** The endpoints the client calls, each for one selector. */
  datatype Endpoint =
    | ListEndpoint(selector: string)
    | StateEndpoint(selector: string)
    | ToggleEndpoint(selector: string)
    | BreatheEndpoint(selector: string)
    | PulseEndpoint(selector: string)

  const LightsPrefix := "/lights/"

  function Suffix(e: Endpoint): string {
    match e
    case ListEndpoint(_) => ""
    case StateEndpoint(_) => "/state"
    case ToggleEndpoint(_) => "/toggle"
    case BreatheEndpoint(_) => "/effects/breathe"
    case PulseEndpoint(_) => "/effects/pulse"
  }

  /** The endpoint path, relative to the API base URL. */
  function Path(e: Endpoint): string {
    LightsPrefix + e.selector + Suffix(e)
  }

  /** The selector in front of `suffix`, when `rest` ends with it and the selector has no '/'. */
  function SelectorBefore(rest: string, suffix: string): (r: Option<string>)
    ensures r.Some? ==> '/' !in r.value && r.value + suffix == rest
  {
    if EndsWith(rest, suffix) && '/' !in rest[..|rest| - |suffix|] then
      assert rest[..|rest| - |suffix|] + suffix == rest;
      Some(rest[..|rest| - |suffix|])
    else None
  }

  /** Recovers the endpoint from a path; the inverse of `Path` for selectors without '/'. */
  function ParsePath(p: string): (r: Option<Endpoint>)
    ensures r.Some? ==> Path(r.value) == p
  {
    if !StartsWith(p, LightsPrefix) then None
    else
      var rest := p[|LightsPrefix|..];
      assert p == LightsPrefix + rest;
      if '/' !in rest then Some(ListEndpoint(rest))
      else if SelectorBefore(rest, "/state").Some? then Some(StateEndpoint(SelectorBefore(rest, "/state").value))
      else if SelectorBefore(rest, "/toggle").Some? then Some(ToggleEndpoint(SelectorBefore(rest, "/toggle").value))
      else if SelectorBefore(rest, "/effects/breathe").Some? then
        Some(BreatheEndpoint(SelectorBefore(rest, "/effects/breathe").value))
      else if SelectorBefore(rest, "/effects/pulse").Some? then
        Some(PulseEndpoint(SelectorBefore(rest, "/effects/pulse").value))
      else None
  }

  lemma SelectorBeforeExact(s: string, suffix: string)
    requires '/' !in s
    ensures SelectorBefore(s + suffix, suffix) == Some(s)
  {
    assert (s + suffix)[..|s|] == s;
    assert (s + suffix)[|s|..] == suffix;
  }

  /** Paths are unambiguous: each path names one endpoint when selectors have no '/'. */
  lemma PathRoundTrip(e: Endpoint)
    requires '/' !in e.selector
    ensures ParsePath(Path(e)) == Some(e)
  {
    var s := e.selector;
    var p := Path(e);
    assert p[..|LightsPrefix|] == LightsPrefix;
    var rest := p[|LightsPrefix|..];
    assert rest == s + Suffix(e);
    match e
    case ListEndpoint(_) =>
      assert rest == s;
    case StateEndpoint(_) =>
      SelectorBeforeExact(s, "/state");
    case ToggleEndpoint(_) =>
      SuffixMisses(s, "/toggle", "/state");
      SelectorBeforeExact(s, "/toggle");
    case BreatheEndpoint(_) =>
      SuffixMisses(s, "/effects/breathe", "/state");
      SuffixMisses(s, "/effects/breathe", "/toggle");
      SelectorBeforeExact(s, "/effects/breathe");
    case PulseEndpoint(_) =>
      SuffixMisses(s, "/effects/pulse", "/state");
      SuffixMisses(s, "/effects/pulse", "/toggle");
      SuffixMisses(s, "/effects/pulse", "/effects/breathe");
      SelectorBeforeExact(s, "/effects/pulse");
  }

  /** `s + have` does not end with `want` for the distinct suffixes the client uses. */
  lemma SuffixMisses(s: string, have: string, want: string)
    requires (have, want) in {("/toggle", "/state"), ("/effects/breathe", "/state"), ("/effects/breathe", "/toggle"),
                              ("/effects/pulse", "/state"), ("/effects/pulse", "/toggle"),
                              ("/effects/pulse", "/effects/breathe")}
    ensures SelectorBefore(s + have, want).None?
  {
    var rest := s + have;
    assert EndsWith(rest, have) by {
      assert rest[|rest| - |have|..] == have;
    }
    if EndsWith(rest, want) {
      CommonEnding(rest, have, want, if |have| < |want| then |have| else |want|);
      assert false;
    }
  }

  /** Two suffixes of one string agree on their last `m` characters. */
  lemma CommonEnding(rest: string, have: string, want: string, m: nat)
    requires EndsWith(rest, have) && EndsWith(rest, want)
    requires m <= |have| && m <= |want|
    ensures have[|have| - m..] == want[|want| - m..]
  {
    assert have[|have| - m..] == rest[|rest| - m..];
    assert want[|want| - m..] == rest[|rest| - m..];
  }

  /** The request headers: the bearer token and a JSON content type. */
  function Headers(token: string): (h: map<string, string>)
    ensures h.Keys == {"Authorization", "Content-Type"}
    ensures h["Content-Type"] == "application/json"
    ensures BearerToken(h) == Some(token)
  {
    var h := map["Authorization" := "Bearer " + token, "Content-Type" := "application/json"];
    assert h["Authorization"][..7] == "Bearer ";
    h
  }

  /** The token a server reads from an `Authorization: Bearer …` header. */
  function BearerToken(h: map<string, string>): Option<string> {
    if "Authorization" in h && StartsWith(h["Authorization"], "Bearer ") then
      Some(h["Authorization"][7..])
    else None
  }

  /** A colour as the vendor API's colour string describes it. */
  datatype ColorDescriptor =
    | HS(hue: real, saturation: real)  // "hue:<h> saturation:<s>", saturation on the vendor's 0..1 scale
    | Kelvin(kelvin: int)              // "kelvin:<k>"
    | Named(name: string)              // a colour name such as "white"

  /** A JSON value in a request body. */
  datatype BodyValue = Number(number: real) | Text(text: string) | Flag(flag: bool) | Colour(colour: ColorDescriptor)

  /** A request as the client sends it. */
  datatype HttpRequest = HttpRequest(
    verb: HttpMethod,
    endpoint: string,
    headers: map<string, string>,
    body: Option<map<string, BodyValue>>)

  const SetStateKeys := {"duration", "power", "color", "brightness", "infrared", "fast"}

  /**
   * The body of a set-state request, built by conditional insertion: `duration`
   * always, each optional argument only when supplied, and `fast` only when true.
   */
  method SetStateBody(power: Option<string>, color: Option<ColorDescriptor>, brightness: Option<real>,
                      duration: real, infrared: Option<real>, fast: bool)
    returns (data: map<string, BodyValue>)
    ensures data.Keys <= SetStateKeys
    ensures "duration" in data && data["duration"] == Number(duration)
    ensures "power" in data <==> power.Some?
    ensures power.Some? ==> data["power"] == Text(power.value)
    ensures "color" in data <==> color.Some?
    ensures color.Some? ==> data["color"] == Colour(color.value)
    ensures "brightness" in data <==> brightness.Some?
    ensures brightness.Some? ==> data["brightness"] == Number(brightness.value)
    ensures "infrared" in data <==> infrared.Some?
    ensures infrared.Some? ==> data["infrared"] == Number(infrared.value)
    ensures "fast" in data <==> fast
    ensures "fast" in data ==> data["fast"] == Flag(true)
  {
    data := map["duration" := Number(duration)];
    if power.Some? {
      data := data["power" := Text(power.value)];
    }
    if color.Some? {
      data := data["color" := Colour(color.value)];
    }
    if brightness.Some? {
      data := data["brightness" := Number(brightness.value)];
    }
    if infrared.Some? {
      data := data["infrared" := Number(infrared.value)];
    }
    if fast {
      data := data["fast" := Flag(true)];
    }
  }

  function ToggleBody(duration: real): (data: map<string, BodyValue>)
    ensures data.Keys == {"duration"}
    ensures data["duration"] == Number(duration)
  {
    map["duration" := Number(duration)]
  }

  function PulseBody(color: ColorDescriptor, period: real, cycles: real, persist: bool, powerOn: bool)
    : (data: map<string, BodyValue>)
    ensures data.Keys == {"color", "period", "cycles", "persist", "power_on"}
    ensures data["color"] == Colour(color) && data["period"] == Number(period)
    ensures data["cycles"] == Number(cycles) && data["persist"] == Flag(persist)
    ensures data["power_on"] == Flag(powerOn)
  {
    map["color" := Colour(color), "period" := Number(period), "cycles" := Number(cycles),
        "persist" := Flag(persist), "power_on" := Flag(powerOn)]
  }

  function BreatheBody(color: ColorDescriptor, period: real, cycles: real, persist: bool, powerOn: bool, peak: real)
    : (data: map<string, BodyValue>)
    ensures data.Keys == {"color", "period", "cycles", "persist", "power_on", "peak"}
    ensures data["color"] == Colour(color) && data["period"] == Number(period)
    ensures data["cycles"] == Number(cycles) && data["persist"] == Flag(persist)
    ensures data["power_on"] == Flag(powerOn)
    ensures data["peak"] == Number(peak)
  {
    map["color" := Colour(color), "period" := Number(period), "cycles" := Number(cycles),
        "persist" := Flag(persist), "power_on" := Flag(powerOn), "peak" := Number(peak)]
  }

  /** The two effect bodies agree on every shared key; breathe adds only `peak`. */
  lemma BreatheExtendsPulse(color: ColorDescriptor, period: real, cycles: real, persist: bool, powerOn: bool, peak: real)
    ensures BreatheBody(color, period, cycles, persist, powerOn, peak)
         == PulseBody(color, period, cycles, persist, powerOn)["peak" := Number(peak)]
    ensures "peak" !in PulseBody(color, period, cycles, persist, powerOn)
  {
  }

  // ---------------------------------------------------------------------------
  // The client and its session
  // ---------------------------------------------------------------------------

  /** A network session; it is either open or closed. */
  class ClientSession {
    var closed: bool

    constructor()
      ensures !closed
    {
      closed := false;
    }

    method Close()
      modifies this
      ensures closed
    {
      closed := true;
    }
  }

  /**
   * The client. A client constructed without a session creates and owns one; a
   * session handed in is borrowed and is never closed by the client.
   */
  class LifxCloudApi {
    const token: string
    var session: ClientSession?
    var ownedSession: bool

    constructor(token: string, session: ClientSession? := null)
      ensures this.token == token && this.session == session
      ensures ownedSession <==> session == null
    {
      this.token := token;
      this.session := session;
      ownedSession := session == null;
    }

    /**
     * The session after acquiring one: open, and either the same session as before
     * (when that one was still open) or a newly created, owned one.
     */
    twostate predicate SessionAcquired()
      reads this, session
    {
      && session != null && !session.closed
      && if old(session) != null && !old(session.closed) then
           session == old(session) && ownedSession == old(ownedSession)
         else
           fresh(session) && ownedSession
    }

    /** Reuses the session while it is open, and otherwise creates a new, owned one. */
    method GetSession() returns (s: ClientSession)
      modifies this
      ensures s == session && !s.closed
      ensures old(session) != null && !old(session.closed) ==>
                session == old(session) && ownedSession == old(ownedSession)
      ensures old(session) == null || old(session.closed) ==> fresh(session) && ownedSession
    {
      if session == null || session.closed {
        session := new ClientSession();
        ownedSession := true;
      }
      s := session;
    }

    /** Closes the session only when the client owns it and it is still open. */
    method Close()
      modifies session
      ensures session != null ==> session.closed == (old(session.closed) || ownedSession)
      ensures !ownedSession ==> session == null || unchanged(session)
    {
      if ownedSession && session != null && !session.closed {
        session.Close();
      }
    }

    /** Sends one request and classifies what the network answered. */
    method Request<B>(verb: HttpMethod, endpoint: string, data: Option<map<string, BodyValue>>, answer: Transport<B>)
      returns (sent: HttpRequest, o: Outcome<B>)
      modifies this
      ensures SessionAcquired()
      ensures sent == HttpRequest(verb, endpoint, Headers(token), data)
      ensures o == Classify(answer)
    {
      var _ := GetSession();
      sent := HttpRequest(verb, endpoint, Headers(token), data);
      o := Classify(answer);
    }

    method ListLights(answer: Transport<seq<LightDict>>, selector: string := "all")
      returns (sent: HttpRequest, r: Result<seq<LifxLight>, Exception>)
      modifies this
      ensures SessionAcquired()
      ensures sent == HttpRequest(GET, Path(ListEndpoint(selector)), Headers(token), None)
      ensures r == LightsFromOutcome(Classify(answer))
    {
      var o;
      sent, o := Request(GET, Path(ListEndpoint(selector)), None, answer);
      r := LightsFromOutcome(o);
    }

    method ValidateToken(answer: Transport<seq<LightDict>>)
      returns (sent: HttpRequest, valid: Result<bool, Exception>)
      modifies this
      ensures SessionAcquired()
      ensures sent == HttpRequest(GET, Path(ListEndpoint("all")), Headers(token), None)
      ensures valid == TokenValidity(LightsFromOutcome(Classify(answer)))
    {
      var listed;
      sent, listed := ListLights(answer);
      valid := TokenValidity(listed);
    }

    method SetState<B>(answer: Transport<B>, selector: string, power: Option<string> := None,
                       color: Option<ColorDescriptor> := None, brightness: Option<real> := None,
                       duration: real := 1.0, infrared: Option<real> := None, fast: bool := false)
      returns (sent: HttpRequest, o: Outcome<B>)
      modifies this
      ensures SessionAcquired()
      ensures sent.verb == PUT && sent.endpoint == Path(StateEndpoint(selector)) && sent.headers == Headers(token)
      ensures sent.body.Some? && sent.body.value.Keys <= SetStateKeys
      ensures "duration" in sent.body.value && sent.body.value["duration"] == Number(duration)
      ensures "fast" in sent.body.value <==> fast
      ensures fast ==> sent.body.value["fast"] == Flag(true)
      ensures "power" in sent.body.value <==> power.Some?
      ensures power.Some? ==> sent.body.value["power"] == Text(power.value)
      ensures "color" in sent.body.value <==> color.Some?
      ensures color.Some? ==> sent.body.value["color"] == Colour(color.value)
      ensures "brightness" in sent.body.value <==> brightness.Some?
      ensures brightness.Some? ==> sent.body.value["brightness"] == Number(brightness.value)
      ensures "infrared" in sent.body.value <==> infrared.Some?
      ensures infrared.Some? ==> sent.body.value["infrared"] == Number(infrared.value)
      ensures o == Classify(answer)
    {
      var data := SetStateBody(power, color, brightness, duration, infrared, fast);
      sent, o := Request(PUT, Path(StateEndpoint(selector)), Some(data), answer);
    }

    method TogglePower<B>(answer: Transport<B>, selector: string, duration: real := 1.0)
      returns (sent: HttpRequest, o: Outcome<B>)
      modifies this
      ensures SessionAcquired()
      ensures sent == HttpRequest(POST, Path(ToggleEndpoint(selector)), Headers(token), Some(ToggleBody(duration)))
      ensures o == Classify(answer)
    {
      sent, o := Request(POST, Path(ToggleEndpoint(selector)), Some(ToggleBody(duration)), answer);
    }

    method BreatheEffect<B>(answer: Transport<B>, selector: string, color: ColorDescriptor,
                            period: real := 1.0, cycles: real := 1.0, persist: bool := false,
                            powerOn: bool := true, peak: real := 0.5)
      returns (sent: HttpRequest, o: Outcome<B>)
      modifies this
      ensures SessionAcquired()
      ensures sent == HttpRequest(POST, Path(BreatheEndpoint(selector)), Headers(token),
                                  Some(BreatheBody(color, period, cycles, persist, powerOn, peak)))
      ensures o == Classify(answer)
    {
      sent, o := Request(POST, Path(BreatheEndpoint(selector)), Some(BreatheBody(color, period, cycles, persist, powerOn, peak)), answer);
    }

    method PulseEffect<B>(answer: Transport<B>, selector: string, color: ColorDescriptor,
                          period: real := 1.0, cycles: real := 1.0, persist: bool := false,
                          powerOn: bool := true)
      returns (sent: HttpRequest, o: Outcome<B>)
      modifies this
      ensures SessionAcquired()
      ensures sent == HttpRequest(POST, Path(PulseEndpoint(selector)), Headers(token),
                                  Some(PulseBody(color, period, cycles, persist, powerOn)))
      ensures o == Classify(answer)
    {
      sent, o := Request(POST, Path(PulseEndpoint(selector)), Some(PulseBody(color, period, cycles, persist, powerOn)), answer);
    }
  }

  /**
   * Session ownership end to end: a borrowed session stays open through a request
   * and any number of closes; an owned one is closed by the first close, and a
   * second close changes nothing.
   */
  method SessionLifecycle(token: string, borrowed: ClientSession, answer: Transport<seq<LightDict>>)
    returns (borrowedStaysOpen: bool, ownedIsClosed: bool)
    requires !borrowed.closed
    modifies borrowed
    ensures borrowedStaysOpen && ownedIsClosed
  {
    var shared := new LifxCloudApi(token, borrowed);
    var _, _ := shared.ListLights(answer);
    shared.Close();
    shared.Close();
    borrowedStaysOpen := !borrowed.closed;

    var own := new LifxCloudApi(token);
    assert own.ownedSession;
    var _, _ := own.ListLights(answer);
    own.Close();
    var first := own.session;
    own.Close();
    ownedIsClosed := own.session == first && first != null && first.closed;
  }
}
