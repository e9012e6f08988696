# LIFX Cloud integration — a verified model

This project models the core of a Home Assistant custom integration that
controls LIFX smart lights through the vendor's cloud HTTP API. There are four
parts:

- **The API client** (`api.dfy`, module `Api`). It covers the client's three
  exception classes and how every HTTP exchange is classified into a JSON
  result, "no content" or an exception. It builds the light record from the
  vendor's JSON object, including its defaults. It covers the request paths,
  headers and bodies it sends, and the ownership of its network session: a
  session handed in is borrowed and never closed, and a session the client
  creates is owned and closed on `close`.
- **The polling coordinator** (`coordinator.dfy`, module `Coordinator`). This
  is the refresh step, which turns the listed lights into the snapshot
  `id -> light` (a later duplicate wins) and turns a client error into an
  update failure.
- **The light entity** (`light.dfy`, module `LightPlatform`). It covers the
  host-facing properties derived from a light record, and the translation of
  turn-on and turn-off commands into client calls and the coordinator refresh,
  recorded as a trace of calls. It also covers the discovery of new lights on
  each coordinator update, as a class holding the set of known light ids.
- **The config flow's user step** (`config_flow.dfy`, module `ConfigFlow`).
  This is the token check, covering which error each failure shows and which
  unique id a new entry gets.

`strings.dfy` holds string helpers: decimal rendering of a status code, with
its parser as a partner, plus prefix, suffix and truncation. `wrappers.dfy`
holds `Option` and `Result`.

The network, JSON decoding and the asyncio runtime are abstracted away:

- What the network answered to a request is an input (`Api.Transport`). It is
  a timeout, a client failure, or a status with its text and decoded body.
- What the client would send is an output (`Api.HttpRequest`).
- An exception an awaited client call raises in the light entity is an input
  (`apiError`) of the command.

Notes on the source's behaviour, as modelled:

- The brightness property truncates (`int(b * 255)`, light.py:115); it does
  not round.
- Every status below 400, except 202, has its JSON body parsed. This includes
  1xx and 3xx statuses, not only 2xx ones.
- A 401 reports "Invalid access token" and a 403 reports "Access forbidden".

## Model

| member | source | states |
|---|---|---|
| Api.Hierarchy | custom_components/lifx_cloud/api.py:14-24 | authentication and connection errors are both caught as the base client error, and never both at once |
| Api.Classify | custom_components/lifx_cloud/api.py:134-176 | each transport outcome maps to its exception or result in the source's order: timeout and client failure give a connection error, 401 and 403 give an authentication error, 207 gives JSON, other statuses of 400 or more give "API error <status>: <text>", 202 gives no content, and everything else gives JSON |
| Api.ClassifyTaxonomy | custom_components/lifx_cloud/api.py:134-176 | a request fails exactly on a transport failure or a status of 400 or more. The failure is an authentication error exactly for 401/403 and a connection error exactly for transport failures. A 202 is the only "no content" |
| Api.ApiErrorMessage | custom_components/lifx_cloud/api.py:161-166 | the generic error message is "API error ", the status in decimal, ": " and the response text, in that order |
| Api.ApiErrorMessageInjective | custom_components/lifx_cloud/api.py:161-166 | the generic error message determines the status code it reports |
| Api.ServerErrorExample | tests/test_api.py:119-132 | a 500 response raises the base error "API error 500: Internal Server Error" |
| Api.FromDict | custom_components/lifx_cloud/api.py:87-103 | building a record succeeds exactly when `id` and `label` are present, and otherwise raises KeyError for the first missing one (`id` first). The record carries the object's values |
| Api.FromDictDefaults | custom_components/lifx_cloud/api.py:87-103 | present optional keys are copied, and absent ones default to: uuid the id, connected false, power "off", brightness 0, an empty colour, group, location and product, an empty last-seen and 0 seconds |
| Api.LifxLight.IsOn | custom_components/lifx_cloud/api.py:43-46 | a light is on exactly when its power is "on" |
| Api.LifxLight.Hue | custom_components/lifx_cloud/api.py:48-51 | the hue is the colour's `hue`, or 0 when it is missing |
| Api.LifxLight.Saturation | custom_components/lifx_cloud/api.py:53-56 | the saturation is the colour's `saturation`, or 0 when it is missing |
| Api.LifxLight.Kelvin | custom_components/lifx_cloud/api.py:58-61 | the kelvin is the colour's `kelvin`, or 3500 when it is missing |
| Api.LifxLight.Caps | custom_components/lifx_cloud/api.py:63-66 | the capabilities are the product's `capabilities` object, or an empty one when it is missing |
| Api.LifxLight.SupportsColor | custom_components/lifx_cloud/api.py:63-67 | colour support is the capabilities' `has_color`, or false when it is missing |
| Api.LifxLight.SupportsTemperature | custom_components/lifx_cloud/api.py:69-73 | temperature support is the capabilities' `has_variable_color_temp`, or false when it is missing |
| Api.LifxLight.MinKelvin | custom_components/lifx_cloud/api.py:75-79 | the minimum kelvin is the capabilities' `min_kelvin`, or 2500 when it is missing |
| Api.LifxLight.MaxKelvin | custom_components/lifx_cloud/api.py:81-85 | the maximum kelvin is the capabilities' `max_kelvin`, or 9000 when it is missing |
| Api.AccessorDefaults | custom_components/lifx_cloud/api.py:43-85 | a light whose product has no capabilities object supports neither colour nor temperature and has the range 2500..9000 (the per-key defaults are the `Api.LifxLight` accessor rows) |
| Api.FromDictToDict | custom_components/lifx_cloud/api.py:87-103 | serialising a record and building it again gives back the same record |
| Api.FromDictIdempotent | custom_components/lifx_cloud/api.py:87-103 | normalising a light object through a record and back is idempotent |
| Api.FromDicts | custom_components/lifx_cloud/api.py:181 | the list comprehension succeeds exactly when every object builds, keeping length and order. Otherwise it raises the error of the first object that fails |
| Api.LightsFromOutcome | custom_components/lifx_cloud/api.py:178-181 | listing passes an exception through, raises TypeError on a 202's missing body, and otherwise builds every object |
| Api.ListingOfCompleteObjects | custom_components/lifx_cloud/api.py:178-181 | a successful listing of serialised records gives back exactly those records |
| Api.TokenValidity | custom_components/lifx_cloud/api.py:183-189 | token validation is true on a successful listing and false on an authentication error. Every other error propagates unchanged |
| Api.TokenValidityOfTransport | custom_components/lifx_cloud/api.py:183-189 | validation is false exactly for 401/403. It raises for transport failures, and raises "API error <status>: <text>" for other statuses of 400 or more |
| Api.PathRoundTrip | custom_components/lifx_cloud/api.py:178-273 | every endpoint path (`/lights/<selector>[/state, /toggle, /effects/breathe, /effects/pulse]`) parses back to its endpoint and selector, for a selector without '/' |
| Api.Headers | custom_components/lifx_cloud/api.py:127-132 | the headers are exactly Authorization and Content-Type. They carry the bearer token and `application/json` |
| Api.SetStateBody | custom_components/lifx_cloud/api.py:202-213 | the set-state body always has the duration. Power, colour, brightness and infrared appear exactly when given, each with its value, and `fast` appears, as true, exactly when requested |
| Api.ToggleBody | custom_components/lifx_cloud/api.py:223-227 | the toggle body holds only the duration, with the given value |
| Api.PulseBody | custom_components/lifx_cloud/api.py:263-273 | the pulse body holds exactly colour, period, cycles, persist and power_on, each with its argument's value |
| Api.BreatheBody | custom_components/lifx_cloud/api.py:240-251 | the breathe body holds exactly the pulse keys plus peak, each with its argument's value |
| Api.BreatheExtendsPulse | custom_components/lifx_cloud/api.py:229-273 | the breathe body is the pulse body with `peak` added, and the two agree on every shared key |
| Api.LifxCloudApi.constructor | custom_components/lifx_cloud/api.py:109-113 | the client keeps the token and the session, and owns the session exactly when none was handed in |
| Api.LifxCloudApi.GetSession | custom_components/lifx_cloud/api.py:115-120 | an open session is reused with its ownership. A missing or closed one is replaced by a new, owned, open session |
| Api.LifxCloudApi.Close | custom_components/lifx_cloud/api.py:122-125 | close closes the session only when the client owns it. A borrowed session is left unchanged |
| Api.LifxCloudApi.Request | custom_components/lifx_cloud/api.py:134-176 | a request acquires an open session, sends the verb, path, headers and body, and returns the classification of the answer |
| Api.LifxCloudApi.ListLights | custom_components/lifx_cloud/api.py:178-181 | list_lights sends GET `/lights/<selector>` (default `all`) without a body and returns the listing of the answer |
| Api.LifxCloudApi.ValidateToken | custom_components/lifx_cloud/api.py:183-189 | token validation sends GET `/lights/all` with the headers and no body, and returns the token validity of that listing |
| Api.LifxCloudApi.SetState | custom_components/lifx_cloud/api.py:191-215 | set_state sends PUT `/lights/<selector>/state` with the set-state body (keys and values; `fast` only as true), with defaults duration 1.0 and fast false |
| Api.LifxCloudApi.TogglePower | custom_components/lifx_cloud/api.py:217-227 | toggle sends POST `/lights/<selector>/toggle` with the toggle body |
| Api.LifxCloudApi.BreatheEffect | custom_components/lifx_cloud/api.py:229-251 | breathe sends POST `/lights/<selector>/effects/breathe` with the breathe body and its defaults |
| Api.LifxCloudApi.PulseEffect | custom_components/lifx_cloud/api.py:253-273 | pulse sends POST `/lights/<selector>/effects/pulse` with the pulse body and its defaults |
| Api.SessionLifecycle | custom_components/lifx_cloud/api.py:109-125 | a borrowed session stays open through requests and repeated closes. An owned one is closed by close, and a second close leaves it closed |
| Coordinator.IndexById | custom_components/lifx_cloud/coordinator.py:36 | the snapshot's keys are exactly the listed ids, and each key maps to a light with that id |
| Coordinator.IndexSize | custom_components/lifx_cloud/coordinator.py:36 | the snapshot has at most one entry per listed light |
| Coordinator.LaterWins | custom_components/lifx_cloud/coordinator.py:36 | with duplicate ids, the last light carrying an id is the one kept |
| Coordinator.DistinctIdsKeepEveryLight | custom_components/lifx_cloud/coordinator.py:36 | with distinct ids every listed light is in the snapshot under its own id |
| Coordinator.UpdateData | custom_components/lifx_cloud/coordinator.py:32-38 | a successful listing becomes the snapshot `IndexById` of the listed lights, whose keys are the listed ids. A client error becomes an update failure "Error communicating with API: <message>", and any other exception propagates unchanged |
| Coordinator.UpdateFromTransport | custom_components/lifx_cloud/coordinator.py:32-38 | every transport failure and every status of 400 or more, authentication included, is an update failure. An empty listing is an empty snapshot, and a 202 is not handled |
| Coordinator.MissingIdIsUnhandled | custom_components/lifx_cloud/coordinator.py:32-38 | a light object without `id` escapes the refresh as a KeyError, not as an update failure |
| LightPlatform.LightOf | custom_components/lifx_cloud/light.py:77-80 | the entity's record is the snapshot's entry for its id, and is absent exactly when the id is not in the snapshot |
| LightPlatform.Available | custom_components/lifx_cloud/light.py:82-85 | the entity is available only with a healthy coordinator and a record, and with a record exactly when the coordinator is healthy and the light connected |
| LightPlatform.AvailableMeansConnected | custom_components/lifx_cloud/light.py:82-85 | the entity is available exactly when the coordinator is healthy and the snapshot holds a connected record for its id |
| LightPlatform.IsOn | custom_components/lifx_cloud/light.py:103-108 | is_on is unknown without a record, and otherwise is true exactly when power is "on" |
| LightPlatform.Truncate | custom_components/lifx_cloud/light.py:115 | `int()` truncates toward zero: for a non-negative argument the result is the largest integer not above it, for a negative one the smallest integer not below it |
| LightPlatform.Brightness | custom_components/lifx_cloud/light.py:110-115 | brightness is unknown without a record, and otherwise is the vendor level times 255 truncated, in 0..255 for a level in 0..1 |
| LightPlatform.HsColor | custom_components/lifx_cloud/light.py:144-149 | hs_color is the record's hue and its saturation times 100, or unknown without a record |
| LightPlatform.ColorTempKelvin | custom_components/lifx_cloud/light.py:151-156 | the colour temperature is the record's kelvin (default 3500), or unknown without a record |
| LightPlatform.ReadBack | custom_components/lifx_cloud/light.py:207-215 | a brightness `n` in 0..255 that turn-on sends as `n/255` reads back as `n`. A saturation sent as `s/100` reads back as `s` |
| LightPlatform.SupportedColorModes | custom_components/lifx_cloud/light.py:129-142 | the supported modes are never empty. HS is in them exactly with colour support and colour temperature exactly with temperature support. Brightness is in them exactly when neither is supported, and alone without a record |
| LightPlatform.CurrentColorModeAsWritten | custom_components/lifx_cloud/light.py:117-127 | color_mode as written is unknown exactly without a record. With one it is HS exactly when colour is supported and saturation is positive, otherwise colour temperature exactly when that is supported, otherwise brightness |
| LightPlatform.AsWrittenModeInSupported | custom_components/lifx_cloud/light.py:117-142 | color_mode as written lies in the supported modes except exactly for a colour-only light whose saturation is not positive |
| LightPlatform.AsWrittenModeCounterexample | custom_components/lifx_cloud/light.py:123-141 | a white colour-only light reports brightness mode while supporting only HS |
| LightPlatform.CurrentColorMode | custom_components/lifx_cloud/light.py:117-127 | the corrected colour mode always lies in the supported modes |
| LightPlatform.CorrectionOnlyInFaultyCase | custom_components/lifx_cloud/light.py:123-127 | the corrected mode differs from the mode as written only for a colour-only light with non-positive saturation |
| LightPlatform.MinColorTempKelvin | custom_components/lifx_cloud/light.py:158-163 | the minimum colour temperature is 2500 without a record, and the record's minimum kelvin otherwise |
| LightPlatform.MaxColorTempKelvin | custom_components/lifx_cloud/light.py:165-170 | the maximum colour temperature is 9000 without a record, and the record's maximum kelvin otherwise |
| LightPlatform.KelvinFallbacks | custom_components/lifx_cloud/light.py:158-170 | without a record the range is 2500..9000, the same as a record without capabilities. A record's declared bounds are passed through |
| LightPlatform.FixtureLight | tests/conftest.py:12-45 | the test fixture builds a light that is on, with hue 120, saturation 0.5, kelvin 3500 and host brightness 204. It supports both colour modes and is in HS mode, both as written and corrected |
| LightPlatform.EffectList | custom_components/lifx_cloud/light.py:172-175 | the offered effects are "breathe" then "pulse" |
| LightPlatform.TurnOn | custom_components/lifx_cloud/light.py:177-225 | turn-on does nothing without a record. "breathe" and "pulse" make one effect call with the fixed white, period, cycles and defaults. Anything else makes one set-state call with power "on", the transition (default 1.0), the HS colour with saturation /100 or else the kelvin, and brightness /255, then the refresh unless the call raised |
| LightPlatform.TurnOff | custom_components/lifx_cloud/light.py:227-237 | turn-off makes one set-state call with power "off" and the transition (default 1.0), then the refresh unless the call raised |
| LightPlatform.EffectsSkipSetState | custom_components/lifx_cloud/light.py:172-201 | every offered effect takes the effect path: one effect call, no state change and no refresh |
| LightPlatform.TurnOffBody | custom_components/lifx_cloud/light.py:227-235 | what turn-off puts on the wire is a body of exactly `duration` and `power: "off"`, the duration being the transition, or 1.0 without one |
| LightPlatform.LightSetup.constructor | custom_components/lifx_cloud/light.py:38 | discovery starts with no known ids and no entities added |
| LightPlatform.LightSetup.AddNewLights | custom_components/lifx_cloud/light.py:41-51 | one pass learns every id of the data. It creates exactly one entity per id that was unknown, all distinct, and hands the batch to the host only when it is not empty |
| LightPlatform.RepeatedDiscovery | custom_components/lifx_cloud/light.py:38-57 | the first pass creates at most one entity per light, and a second pass over the same data creates none |
| ConfigFlow.UniqueId | custom_components/lifx_cloud/config_flow.py:41-44 | the unique id is the first light's location id when there is one, and otherwise the token's first 16 characters (all of a shorter token) |
| ConfigFlow.ErrorCode | custom_components/lifx_cloud/config_flow.py:54-60 | the form error is "invalid_auth" exactly for authentication errors and "cannot_connect" exactly for connection errors. It is "unknown" for everything else |
| ConfigFlow.StepUser | custom_components/lifx_cloud/config_flow.py:24-72 | without input the step shows the empty form. A successful listing creates the "LIFX Cloud" entry holding the token under its unique id, and a failure shows the form with its error under `base` |
| ConfigFlow.StepUserOfTransport | custom_components/lifx_cloud/config_flow.py:33-60 | 401/403 show "invalid_auth", transport failures show "cannot_connect" and other statuses of 400 or more show "unknown". An empty listing still creates an entry, keyed by the token prefix |

## Left out

- The HTTP transport, the base URL and the request timeout are left out (the network is an input). The same goes for the aiohttp session's internals: a session is only open or closed.
- A response body that is not JSON is left out: the `response.json()` failure is not modelled.
- A JSON value of an unexpected type is left out (for example a listing that is an object, or a string where a number belongs). Bodies are typed records whose keys may be missing.
- Floating point is left out. Arithmetic on the vendor's scales uses exact reals, so `LightPlatform.ReadBack` holds for reals; binary floats can round differently.
- Colour strings are left out. `"hue:<h> saturation:<s>"` and `"kelvin:<k>"` are represented by the `ColorDescriptor` they describe, not by Python's float formatting.
- The entity's `device_info` is host registry metadata and carries no behaviour, so it is left out.
- The coordinator's polling timer, its single in-flight refresh, its retention of the last good data, its listener dispatch and `_handle_coordinator_update` belong to the host framework and are left out. The refresh a command triggers is the `Refresh` step of the command's trace, and is assumed not to raise.
- Concurrent commands are left out; each command runs alone.
- The integration's setup and unload (`__init__.py`) are wiring into the host and are left out.
- The config flow's form schema, its logging and its `async_set_unique_id` / already-configured abort are left out. In the source the abort is raised inside the `try` whose `except Exception` branch would also catch it; that host-dependent interaction is not examined.
- LightPlatform.TurnOff takes no light record, because the source's turn-off does not consult one.

## Findings

| source | as written | input that shows it | evidently intended | confidence | as-written member | corrected member |
|---|---|---|---|---|---|---|
| custom_components/lifx_cloud/light.py:123-127 | a light with colour but no colour-temperature support whose saturation is 0 reports brightness mode, while its supported modes are only HS (light.py:136-141); `LightPlatform.AsWrittenModeCounterexample` exhibits it | has_color true, has_variable_color_temp false, saturation 0 | the reported mode is one of the supported modes, here HS | medium, not executed | LightPlatform.CurrentColorModeAsWritten | LightPlatform.CurrentColorMode |
