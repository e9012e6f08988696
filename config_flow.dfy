/**
 * The decision logic of the user step of the config flow: which unique id a new
 * entry gets, and which error code each failure of the token check shows.
 */
module ConfigFlow {
  import opened Wrappers
  import opened Strings
  import opened Api

  const AccessTokenKey := "access_token"

  /** What the step shows: the form with its error map, or a new config entry. */
  datatype FlowResult =
    | ShowForm(errors: map<string, string>)
    | CreateEntry(title: string, uniqueId: string, data: map<string, string>)

  /** The step's input: nothing yet, or a submitted token with what listing the lights returned or raised. */
  datatype UserInput =
    | NoInput
    | Submitted(token: string, listing: Result<seq<LifxLight>, Exception>)

  /** The first light's location id when there is one, otherwise the token's first 16 characters. */
  function UniqueId(token: string, lights: seq<LifxLight>): (id: string)
    ensures |lights| > 0 && "id" in lights[0].location ==> id == lights[0].location["id"]
    ensures |lights| == 0 || "id" !in lights[0].location ==>
              StartsWith(token, id) && |id| == (if |token| < 16 then |token| else 16)
  {
    if |lights| > 0 then
      if "id" in lights[0].location then lights[0].location["id"] else Take(token, 16)
    else Take(token, 16)
  }

  /** The `errors["base"]` code for an exception raised while checking the token. */
  function ErrorCode(e: Exception): (code: string)
    ensures code == "invalid_auth" <==> IsInstance(e, AuthError)
    ensures code == "cannot_connect" <==> IsInstance(e, ConnectionError)
    ensures code == "unknown" <==> !IsInstance(e, AuthError) && !IsInstance(e, ConnectionError)
  {
    if IsInstance(e, AuthError) then "invalid_auth"
    else if IsInstance(e, ConnectionError) then "cannot_connect"
    else "unknown"
  }

  /** `async_step_user`. */
  function StepUser(input: UserInput): (r: FlowResult)
    ensures input.NoInput? ==> r == ShowForm(map[])
    ensures input.Submitted? && input.listing.Ok? ==>
              && r.CreateEntry? && r.title == "LIFX Cloud"
              && r.data == map[AccessTokenKey := input.token]
              && r.uniqueId == UniqueId(input.token, input.listing.value)
    ensures input.Submitted? && input.listing.Err? ==>
              r.ShowForm? && r.errors.Keys == {"base"} && r.errors["base"] == ErrorCode(input.listing.error)
  {
    match input
    case NoInput => ShowForm(map[])
    case Submitted(token, listing) =>
      match listing
      case Ok(lights) => CreateEntry("LIFX Cloud", UniqueId(token, lights), map[AccessTokenKey := token])
      case Err(e) => ShowForm(map["base" := ErrorCode(e)])
  }

  /**
   * From the network answer to the form: 401 and 403 show "invalid_auth", a
   * timeout or transport failure "cannot_connect", and any other status of 400
   * or more "unknown"; a successful listing creates the entry.
   */
  lemma StepUserOfTransport(token: string, t: Transport<seq<LightDict>>)
    ensures var r := StepUser(Submitted(token, LightsFromOutcome(Classify(t))));
      && (t.Response? && (t.status == 401 || t.status == 403) ==> r == ShowForm(map["base" := "invalid_auth"]))
      && (!t.Response? ==> r == ShowForm(map["base" := "cannot_connect"]))
      && (t.Response? && t.status >= 400 && t.status != 401 && t.status != 403 ==>
            r == ShowForm(map["base" := "unknown"]))
      && (t.Response? && t.status < 400 && t.status != 202 && t.body == [] ==> r.CreateEntry? && r.uniqueId == Take(token, 16))
  {
    ClassifyTaxonomy(t);
  }
}
