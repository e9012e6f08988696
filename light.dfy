/**
 * The light entity: the host-facing properties derived from the coordinator's
 * record of one light, the translation of turn-on and turn-off commands into
 * client calls, and the discovery of new lights on each coordinator update.
 */
module LightPlatform {
  import opened Wrappers
  import opened Api

  /** The host's colour modes that this entity uses. */
  datatype ColorMode = HsMode | ColorTempMode | BrightnessMode

  /** The entity's `_light`: the coordinator's current record for its id, if any. */
  function LightOf(data: map<string, LifxLight>, lightId: string): (r: Option<LifxLight>)
    ensures r.Some? <==> lightId in data
    ensures r.Some? ==> r.value == data[lightId]
  {
    if lightId in data then Some(data[lightId]) else None
  }

  // ---------------------------------------------------------------------------
  // Properties
  // ---------------------------------------------------------------------------

  /** Available only while the host considers the coordinator healthy and the light is known and connected. */
  predicate Available(coordinatorAvailable: bool, light: Option<LifxLight>): (a: bool)
    ensures a ==> coordinatorAvailable && light.Some?
    ensures light.Some? ==> (a <==> coordinatorAvailable && light.value.connected)
  {
    coordinatorAvailable && light.Some? && light.value.connected
  }

  /** An available entity has a record in the snapshot, and that record says it is connected. */
  lemma AvailableMeansConnected(coordinatorAvailable: bool, data: map<string, LifxLight>, lightId: string)
    ensures Available(coordinatorAvailable, LightOf(data, lightId)) <==>
              coordinatorAvailable && lightId in data && data[lightId].connected
  {
  }

  function IsOn(light: Option<LifxLight>): (r: Option<bool>)
    ensures r.None? <==> light.None?
    ensures r.Some? ==> (r.value <==> light.value.power == "on")
  {
    match light
    case None => None
    case Some(l) => Some(l.IsOn())
  }

  /** Python's `int()` on a real: truncation toward zero. */
  function Truncate(x: real): (n: int)
    ensures x >= 0.0 ==> n as real <= x < n as real + 1.0
    ensures x < 0.0 ==> n as real - 1.0 < x <= n as real
  {
    if x >= 0.0 then x.Floor else -((-x).Floor)
  }

  /** The brightness on the host's 0..255 scale, truncating the vendor's 0..1 level times 255. */
  function Brightness(light: Option<LifxLight>): (r: Option<int>)
    ensures r.None? <==> light.None?
    ensures r.Some? && 0.0 <= light.value.brightness <= 1.0 ==> 0 <= r.value <= 255
    ensures r.Some? && light.value.brightness >= 0.0 ==>
              r.value as real <= light.value.brightness * 255.0 < r.value as real + 1.0
  {
    match light
    case None => None
    case Some(l) => Some(Truncate(l.brightness * 255.0))
  }

  /** The HS colour on the host's scales: hue in degrees, saturation in percent. */
  function HsColor(light: Option<LifxLight>): (r: Option<(real, real)>)
    ensures r.None? <==> light.None?
    ensures r.Some? ==> r.value.0 == light.value.Hue() && r.value.1 == light.value.Saturation() * 100.0
  {
    match light
    case None => None
    case Some(l) => Some((l.Hue(), l.Saturation() * 100.0))
  }

  function ColorTempKelvin(light: Option<LifxLight>): (r: Option<int>)
    ensures r.None? <==> light.None?
    ensures r.Some? ==> r.value == light.value.Kelvin()
  {
    match light
    case None => None
    case Some(l) => Some(l.Kelvin())
  }

  /**
   * Reading back what turn-on sends: a brightness `n` in 0..255 sent as `n / 255`
   * reads back as `n`, and a saturation sent as `s / 100` reads back as `s`.
   */
  lemma ReadBack(l: LifxLight, n: int, hue: real, sat: real)
    requires 0 <= n <= 255
    ensures l.(brightness := n as real / 255.0).brightness * 255.0 == n as real
    ensures Brightness(Some(l.(brightness := n as real / 255.0))) == Some(n)
    ensures HsColor(Some(l.(color := l.color.(hue := Some(hue), saturation := Some(sat / 100.0))))) == Some((hue, sat))
  {
  }

  /** The colour modes the light can be put in; never empty. */
  function SupportedColorModes(light: Option<LifxLight>): (modes: set<ColorMode>)
    ensures modes != {}
    ensures light.None? ==> modes == {BrightnessMode}
    ensures light.Some? ==> (HsMode in modes <==> light.value.SupportsColor())
    ensures light.Some? ==> (ColorTempMode in modes <==> light.value.SupportsTemperature())
    ensures light.Some? ==>
              (BrightnessMode in modes <==> !light.value.SupportsColor() && !light.value.SupportsTemperature())
  {
    match light
    case None => {BrightnessMode}
    case Some(l) =>
      var modes := (if l.SupportsColor() then {HsMode} else {}) + (if l.SupportsTemperature() then {ColorTempMode} else {});
      if modes == {} then {BrightnessMode} else modes
  }

  /**
   * The colour mode as the source computes it: HS when the light supports colour
   * and its saturation is positive, otherwise colour temperature when supported,
   * otherwise brightness only.
   */
  function CurrentColorModeAsWritten(light: Option<LifxLight>): (mode: Option<ColorMode>)
    ensures mode.None? <==> light.None?
    ensures light.Some? ==> (mode == Some(HsMode) <==> light.value.SupportsColor() && light.value.Saturation() > 0.0)
    ensures light.Some? ==>
              (mode == Some(ColorTempMode) <==>
                 !(light.value.SupportsColor() && light.value.Saturation() > 0.0) && light.value.SupportsTemperature())
    ensures light.Some? ==>
              (mode == Some(BrightnessMode) <==>
                 !(light.value.SupportsColor() && light.value.Saturation() > 0.0) && !light.value.SupportsTemperature())
  {
    match light
    case None => None
    case Some(l) =>
      if l.SupportsColor() && l.Saturation() > 0.0 then Some(HsMode)
      else if l.SupportsTemperature() then Some(ColorTempMode)
      else Some(BrightnessMode)
  }

  /**
   * The reported mode lies in the supported set except exactly for a light with
   * colour but without colour temperature whose saturation is not positive.
   */
  lemma AsWrittenModeInSupported(l: LifxLight)
    ensures CurrentColorModeAsWritten(Some(l)).value in SupportedColorModes(Some(l)) <==>
              !(l.SupportsColor() && !l.SupportsTemperature() && l.Saturation() <= 0.0)
  {
  }

  /** A white colour-only light: the source reports brightness mode while supporting only HS. */
  lemma AsWrittenModeCounterexample()
    ensures var l := LifxLight("a", "a", "Strip", true, "on", 1.0,
                               ColorFields(Some(0.0), Some(0.0), Some(3500)), map[], map[],
                               Product(None, Some(Capabilities(Some(true), Some(false), None, None))), "", 0);
            && CurrentColorModeAsWritten(Some(l)) == Some(BrightnessMode)
            && SupportedColorModes(Some(l)) == {HsMode}
  {
  }

  /**
   * The colour mode with the case above corrected: a colour-only light reports HS
   * whatever its saturation. Every other light gets the source's mode.
   */
  function CurrentColorMode(light: Option<LifxLight>): (mode: Option<ColorMode>)
    ensures mode.None? <==> light.None?
    ensures light.Some? ==> mode.value in SupportedColorModes(light)
  {
    match light
    case None => None
    case Some(l) =>
      if l.SupportsColor() && (l.Saturation() > 0.0 || !l.SupportsTemperature()) then Some(HsMode)
      else if l.SupportsTemperature() then Some(ColorTempMode)
      else Some(BrightnessMode)
  }

  /** The correction changes the mode only in the case the source gets wrong. */
  lemma CorrectionOnlyInFaultyCase(l: LifxLight)
    ensures CurrentColorMode(Some(l)) != CurrentColorModeAsWritten(Some(l)) <==>
              l.SupportsColor() && !l.SupportsTemperature() && l.Saturation() <= 0.0
  {
  }

  /** The kelvin range, falling back to 2500..9000 without a record. */
  function MinColorTempKelvin(light: Option<LifxLight>): (k: int)
    ensures light.None? ==> k == 2500
    ensures light.Some? ==> k == light.value.MinKelvin()
  {
    match light
    case None => 2500
    case Some(l) => l.MinKelvin()
  }

  function MaxColorTempKelvin(light: Option<LifxLight>): (k: int)
    ensures light.None? ==> k == 9000
    ensures light.Some? ==> k == light.value.MaxKelvin()
  {
    match light
    case None => 9000
    case Some(l) => l.MaxKelvin()
  }

  /**
   * The entity's fallbacks without a record are the record's own defaults for a
   * light without capabilities, and a record's declared bounds are passed through.
   */
  lemma KelvinFallbacks(l: LifxLight)
    ensures MinColorTempKelvin(None) == 2500 && MaxColorTempKelvin(None) == 9000
    ensures l.product.capabilities.None? ==>
              MinColorTempKelvin(Some(l)) == MinColorTempKelvin(None) &&
              MaxColorTempKelvin(Some(l)) == MaxColorTempKelvin(None)
    ensures l.product.capabilities.Some? && l.product.capabilities.value.maxKelvin.Some? ==>
              MaxColorTempKelvin(Some(l)) == l.product.capabilities.value.maxKelvin.value
    ensures l.product.capabilities.Some? && l.product.capabilities.value.minKelvin.Some? ==>
              MinColorTempKelvin(Some(l)) == l.product.capabilities.value.minKelvin.value
  {
  }

  /** The fixture light of the tests: on, hue 120, saturation 0.5, both colour modes, HS mode, brightness 204. */
  lemma FixtureLight()
    ensures var d := LightDict(Some("d073d55b6334"), Some("02345678-1234-1234-1234-123456789abc"), Some("Test Light"),
                               Some(true), Some("on"), Some(0.8), Some(ColorFields(Some(120.0), Some(0.5), Some(3500))),
                               Some(map["id" := "group123", "name" := "Living Room"]),
                               Some(map["id" := "location123", "name" := "Home"]),
                               Some(Product(Some("LIFX Color"), Some(Capabilities(Some(true), Some(true), Some(2500), Some(9000))))),
                               Some("2024-01-01T00:00:00Z"), Some(0));
            var l := FromDict(d).value;
            && l.IsOn() && l.Hue() == 120.0 && l.Saturation() == 0.5 && l.Kelvin() == 3500
            && SupportedColorModes(Some(l)) == {HsMode, ColorTempMode}
            && CurrentColorModeAsWritten(Some(l)) == Some(HsMode)
            && CurrentColorMode(Some(l)) == Some(HsMode)
            && Brightness(Some(l)) == Some(204)
  {
  }

  /** The effects the entity offers. */
  function EffectList(): (effects: seq<string>)
    ensures |effects| == 2 && effects[0] == "breathe" && effects[1] == "pulse"
  {
    ["breathe", "pulse"]
  }

  // ---------------------------------------------------------------------------
  // Commands
  // ---------------------------------------------------------------------------

  /** The keyword arguments of a turn-on command; absent keys are `None`. */
  datatype TurnOnArgs = TurnOnArgs(
    effect: Option<string>,
    transition: Option<real>,
    hsColor: Option<(real, real)>,  // hue 0..360, saturation 0..100
    colorTempKelvin: Option<int>,
    brightness: Option<int>)        // 0..255

  /** One awaited step of a command, with every argument the entity passes. */
  datatype Call =
    | SetState(selector: string, power: Option<string>, color: Option<ColorDescriptor>, brightness: Option<real>,
               duration: real, infrared: Option<real>, fast: bool)
    | Breathe(selector: string, effectColor: ColorDescriptor, period: real, cycles: real, persist: bool, powerOn: bool,
              peak: real)
    | Pulse(selector: string, effectColor: ColorDescriptor, period: real, cycles: real, persist: bool, powerOn: bool)
    | Refresh  // the coordinator's refresh request

  function Selector(lightId: string): string {
    "id:" + lightId
  }

  /** The turn-on arguments take the effect path. */
  predicate IsEffect(args: TurnOnArgs) {
    args.effect == Some("breathe") || args.effect == Some("pulse")
  }

  /**
   * `async_turn_on`. `apiError` is what the client call raised, if anything; an
   * exception from it ends the command before the refresh.
   */
  method TurnOn(light: Option<LifxLight>, lightId: string, args: TurnOnArgs, apiError: Option<Exception>)
    returns (calls: seq<Call>, raised: Option<Exception>)
    ensures light.None? ==> calls == [] && raised.None?
    ensures light.Some? && args.effect == Some("breathe") ==>
              calls == [Breathe(Selector(lightId), Named("white"), 2.0, 3.0, false, true, 0.5)] && raised == apiError
    ensures light.Some? && args.effect == Some("pulse") ==>
              calls == [Pulse(Selector(lightId), Named("white"), 1.0, 3.0, false, true)] && raised == apiError
    ensures light.Some? && !IsEffect(args) ==>
              && |calls| == (if apiError.None? then 2 else 1)
              && calls[0].SetState?
              && calls[0].selector == Selector(lightId) && calls[0].power == Some("on")
              && calls[0].infrared.None? && !calls[0].fast
              && (args.transition.Some? ==> calls[0].duration == args.transition.value)
              && (args.transition.None? ==> calls[0].duration == 1.0)
              && (calls[0].color.Some? <==> args.hsColor.Some? || args.colorTempKelvin.Some?)
              && (args.hsColor.Some? ==>
                    calls[0].color == Some(HS(args.hsColor.value.0, args.hsColor.value.1 / 100.0)))
              && (args.hsColor.None? && args.colorTempKelvin.Some? ==>
                    calls[0].color == Some(Kelvin(args.colorTempKelvin.value)))
              && (calls[0].brightness.Some? <==> args.brightness.Some?)
              && (args.brightness.Some? ==> calls[0].brightness.value * 255.0 == args.brightness.value as real)
              && (apiError.None? ==> calls[1] == Refresh)
              && raised == apiError
  {
    calls, raised := [], None;
    if light.None? {
      return;
    }
    if args.effect.Some? {
      var effect := args.effect.value;
      if effect == "breathe" {
        calls := [Breathe(Selector(lightId), Named("white"), 2.0, 3.0, false, true, 0.5)];
        raised := apiError;
        return;
      } else if effect == "pulse" {
        calls := [Pulse(Selector(lightId), Named("white"), 1.0, 3.0, false, true)];
        raised := apiError;
        return;
      }
    }
    var duration := args.transition.GetOr(1.0);
    var color: Option<ColorDescriptor> := None;
    var brightness: Option<real> := None;
    if args.hsColor.Some? {
      var (hue, sat) := args.hsColor.value;
      color := Some(HS(hue, sat / 100.0));
    } else if args.colorTempKelvin.Some? {
      color := Some(Kelvin(args.colorTempKelvin.value));
    }
    if args.brightness.Some? {
      brightness := Some(args.brightness.value as real / 255.0);
    }
    calls := [SetState(Selector(lightId), Some("on"), color, brightness, duration, None, false)];
    if apiError.Some? {
      raised := apiError;
      return;
    }
    calls := calls + [Refresh];
  }

  /** `async_turn_off`: needs no record, and sends only power and duration. */
  method TurnOff(lightId: string, transition: Option<real>, apiError: Option<Exception>)
    returns (calls: seq<Call>, raised: Option<Exception>)
    ensures |calls| >= 1
    ensures calls[0] == SetState(Selector(lightId), Some("off"), None, None, transition.GetOr(1.0), None, false)
    ensures transition.None? ==> calls[0].duration == 1.0
    ensures apiError.None? ==> calls == [calls[0], Refresh] && raised.None?
    ensures apiError.Some? ==> calls == [calls[0]] && raised == apiError
  {
    var duration := transition.GetOr(1.0);
    calls := [SetState(Selector(lightId), Some("off"), None, None, duration, None, false)];
    raised := apiError;
    if apiError.None? {
      calls := calls + [Refresh];
    }
  }

  /** Every offered effect takes the effect path: one effect call, no state change and no refresh. */
  method EffectsSkipSetState(light: LifxLight, lightId: string, effect: string, transition: Option<real>)
    returns (calls: seq<Call>)
    requires effect in EffectList()
    ensures |calls| == 1 && (calls[0].Breathe? || calls[0].Pulse?)
    ensures forall c :: c in calls ==> !c.SetState? && c != Refresh
  {
    var raised;
    calls, raised := TurnOn(Some(light), lightId, TurnOnArgs(Some(effect), transition, None, None, None), None);
  }

  /** What turn-off puts on the wire: a body with exactly `duration` and `power: "off"`. */
  method TurnOffBody(lightId: string, transition: Option<real>) returns (body: map<string, BodyValue>)
    ensures body.Keys == {"duration", "power"}
    ensures body["power"] == Text("off")
    ensures transition.None? ==> body["duration"] == Number(1.0)
    ensures transition.Some? ==> body["duration"] == Number(transition.value)
  {
    var calls, _ := TurnOff(lightId, transition, None);
    var c := calls[0];
    body := SetStateBody(c.power, c.color, c.brightness, c.duration, c.infrared, c.fast);
  }

  // ---------------------------------------------------------------------------
  // Discovery
  // ---------------------------------------------------------------------------

  /** An entity for one light; its unique id is the light id. */
  datatype LifxCloudLight = LifxCloudLight(lightId: string)

  /**
   * The light platform of one config entry: the ids it has created entities
   * for, and the batches it has handed to the host's add-entities callback.
   */
  class LightSetup {
    var knownLightIds: set<string>
    var added: seq<seq<LifxCloudLight>>

    constructor()
      ensures knownLightIds == {} && added == []
    {
      knownLightIds := {};
      added := [];
    }

    /**
     * One pass over the coordinator's data, whose keys are `dataIds` in iteration
     * order: every id not yet known gets one entity, and the batch is handed to
     * the host only when it is not empty.
     */
    method AddNewLights(dataIds: seq<string>) returns (newEntities: seq<LifxCloudLight>)
      modifies this
      ensures knownLightIds == old(knownLightIds) + (set i | 0 <= i < |dataIds| :: dataIds[i])
      ensures forall e :: e in newEntities ==> e.lightId in dataIds && e.lightId !in old(knownLightIds)
      ensures forall k :: k in dataIds && k !in old(knownLightIds) ==> LifxCloudLight(k) in newEntities
      ensures forall i, j :: 0 <= i < j < |newEntities| ==> newEntities[i] != newEntities[j]
      ensures newEntities == [] <==> forall i :: 0 <= i < |dataIds| ==> dataIds[i] in old(knownLightIds)
      ensures added == if newEntities == [] then old(added) else old(added) + [newEntities]
    {
      newEntities := [];
      for n := 0 to |dataIds|
        invariant knownLightIds == old(knownLightIds) + (set i | 0 <= i < n :: dataIds[i])
        invariant forall e :: e in newEntities ==> e.lightId in dataIds[..n] && e.lightId !in old(knownLightIds)
        invariant forall k :: k in dataIds[..n] && k !in old(knownLightIds) ==> LifxCloudLight(k) in newEntities
        invariant forall i, j :: 0 <= i < j < |newEntities| ==> newEntities[i] != newEntities[j]
        invariant newEntities == [] <==> forall i :: 0 <= i < n ==> dataIds[i] in old(knownLightIds)
        invariant forall e :: e in newEntities ==> e.lightId in knownLightIds
        invariant added == old(added)
      {
        var lightId := dataIds[n];
        if lightId !in knownLightIds {
          knownLightIds := knownLightIds + {lightId};
          newEntities := newEntities + [LifxCloudLight(lightId)];
        }
        assert dataIds[..n + 1] == dataIds[..n] + [lightId];
      }
      assert dataIds[..|dataIds|] == dataIds;
      if newEntities != [] {
        added := added + [newEntities];
      }
    }
  }

  /** Two passes over the same data: the second finds nothing new and does not call the host. */
  method RepeatedDiscovery(dataIds: seq<string>) returns (first: seq<LifxCloudLight>, second: seq<LifxCloudLight>)
    ensures |first| <= |dataIds| && second == []
  {
    var setup := new LightSetup();
    first := setup.AddNewLights(dataIds);
    second := setup.AddNewLights(dataIds);
    assert |first| <= |dataIds| by {
      DistinctBound(first, dataIds);
    }
  }

  /** Distinct entities drawn from `ids` are at most as many as `ids`. */
  lemma DistinctBound(es: seq<LifxCloudLight>, ids: seq<string>)
    requires forall e :: e in es ==> e.lightId in ids
    requires forall i, j :: 0 <= i < j < |es| ==> es[i] != es[j]
    ensures |es| <= |ids|
  {
    var ks := set e | e in es :: e.lightId;
    var all := set k | k in ids;
    assert ks <= all;
    assert |ks| == |es| by {
      DistinctIdsCount(es);
    }
    SeqSetSize(ids);
    assert |ks| <= |all| by {
      SubsetSize(ks, all);
    }
  }

  lemma {:induction false} DistinctIdsCount(es: seq<LifxCloudLight>)
    requires forall i, j :: 0 <= i < j < |es| ==> es[i] != es[j]
    ensures |set e | e in es :: e.lightId| == |es|
    decreases |es|
  {
    if es != [] {
      var rest := es[1..];
      DistinctIdsCount(rest);
      var s := set e | e in es :: e.lightId;
      var t := set e | e in rest :: e.lightId;
      assert s == t + {es[0].lightId};
    }
  }

  lemma {:induction false} SeqSetSize(ids: seq<string>)
    ensures |set k | k in ids| <= |ids|
    decreases |ids|
  {
    if ids != [] {
      SeqSetSize(ids[1..]);
      assert (set k | k in ids) == (set k | k in ids[1..]) + {ids[0]};
    }
  }

  lemma SubsetSize(a: set<string>, b: set<string>)
    requires a <= b
    ensures |a| <= |b|
  {
    assert b == a + (b - a);
  }
}
