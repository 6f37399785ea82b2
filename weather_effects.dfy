/**
 * Mapping from OpenWeatherMap condition ids and preview-asset names to the
 * decorative particle effect, and the night heuristic.
 */
module WeatherEffects {
  import opened Wrappers

  /** `WeatherEffectKind`; `NoEffect` is the Swift case `.none`. */
  datatype EffectKind = NoEffect | Rain(light: bool) | Snow | Fog | Leaves | Thunderstorm

  /** One `case lo...hi` arm of the condition-id switch. */
  datatype IdRange = IdRange(lo: int, hi: int, kind: EffectKind)

  /** The switch's arms, in source order. */
  const Arms: seq<IdRange> := [
    IdRange(200, 232, Thunderstorm),
    IdRange(300, 321, Rain(true)),
    IdRange(500, 504, Rain(false)),
    IdRange(511, 511, Snow),
    IdRange(520, 531, Rain(false)),
    IdRange(600, 622, Snow),
    IdRange(700, 781, Fog),
    IdRange(800, 800, NoEffect),
    IdRange(801, 804, Leaves)
  ]

  predicate InArm(a: IdRange, id: int) {
    a.lo <= id <= a.hi
  }

  /** First arm containing `id`, falling through to `default: .none`. */
  function FirstMatch(arms: seq<IdRange>, id: int): EffectKind
  {
    if |arms| == 0 then NoEffect
    else if InArm(arms[0], id) then arms[0].kind
    else FirstMatch(arms[1..], id)
  }

  /** `WeatherEffectMapping.effect(for:)`. */
  function Effect(weatherId: Option<int>): (r: EffectKind)
    ensures weatherId.None? ==> r == NoEffect
    ensures r == Thunderstorm <==> weatherId.Some? && 200 <= weatherId.value <= 232
    ensures r == Rain(true) <==> weatherId.Some? && 300 <= weatherId.value <= 321
    ensures r == Rain(false) <==>
      (weatherId.Some? && (500 <= weatherId.value <= 504 || 520 <= weatherId.value <= 531))
    ensures r == Snow <==>
      (weatherId.Some? && (weatherId.value == 511 || 600 <= weatherId.value <= 622))
    ensures r == Fog <==> weatherId.Some? && 700 <= weatherId.value <= 781
    ensures r == Leaves <==> weatherId.Some? && 801 <= weatherId.value <= 804
  {
    match weatherId
    case None => NoEffect
    case Some(id) =>
      if 200 <= id <= 232 then Thunderstorm
      else if 300 <= id <= 321 then Rain(true)
      else if 500 <= id <= 504 then Rain(false)
      else if id == 511 then Snow
      else if 520 <= id <= 531 then Rain(false)
      else if 600 <= id <= 622 then Snow
      else if 700 <= id <= 781 then Fog
      else if id == 800 then NoEffect
      else if 801 <= id <= 804 then Leaves
      else NoEffect
  }

  /** The chain of ifs is the switch with its arms tried in order. */
  lemma EffectIsFirstMatchingArm(id: int)
    ensures Effect(Some(id)) == FirstMatch(Arms, id)
  {
    forall k | 0 <= k < |Arms|
      ensures FirstMatch(Arms[k..], id) ==
        if InArm(Arms[k], id) then Arms[k].kind else FirstMatch(Arms[k + 1..], id)
    {
      assert Arms[k..][1..] == Arms[k + 1..];
    }
    assert Arms[0..] == Arms;
    assert FirstMatch(Arms[9..], id) == NoEffect;
    assert FirstMatch(Arms[8..], id) == if 801 <= id <= 804 then Leaves else NoEffect;
    assert FirstMatch(Arms[7..], id) == if id == 800 then NoEffect else FirstMatch(Arms[8..], id);
    assert FirstMatch(Arms[6..], id) == if 700 <= id <= 781 then Fog else FirstMatch(Arms[7..], id);
    assert FirstMatch(Arms[5..], id) == if 600 <= id <= 622 then Snow else FirstMatch(Arms[6..], id);
    assert FirstMatch(Arms[4..], id) == if 520 <= id <= 531 then Rain(false) else FirstMatch(Arms[5..], id);
    assert FirstMatch(Arms[3..], id) == if id == 511 then Snow else FirstMatch(Arms[4..], id);
    assert FirstMatch(Arms[2..], id) == if 500 <= id <= 504 then Rain(false) else FirstMatch(Arms[3..], id);
    assert FirstMatch(Arms[1..], id) == if 300 <= id <= 321 then Rain(true) else FirstMatch(Arms[2..], id);
  }

  /** No id lies in two arms. */
  lemma ArmsDisjoint(i: int, j: int, id: int)
    requires 0 <= i < j < |Arms|
    ensures !(InArm(Arms[i], id) && InArm(Arms[j], id))
  {
  }

  lemma {:induction false} FirstMatchOfDisjoint(arms: seq<IdRange>, k: int, id: int)
    requires 0 <= k < |arms| && InArm(arms[k], id)
    requires forall i, j :: 0 <= i < j < |arms| ==> !(InArm(arms[i], id) && InArm(arms[j], id))
    ensures FirstMatch(arms, id) == arms[k].kind
    decreases |arms|
  {
    if k > 0 {
      assert !InArm(arms[0], id);
      FirstMatchOfDisjoint(arms[1..], k - 1, id);
    }
  }

  /**
   * Because the arms are pairwise disjoint, whichever arm contains the id
   * decides the result: the order of the cases does not matter.
   */
  lemma EffectIndependentOfArmOrder(k: int, id: int)
    requires 0 <= k < |Arms| && InArm(Arms[k], id)
    ensures Effect(Some(id)) == Arms[k].kind
  {
    forall i, j | 0 <= i < j < |Arms| ensures !(InArm(Arms[i], id) && InArm(Arms[j], id)) {
      ArmsDisjoint(i, j, id);
    }
    FirstMatchOfDisjoint(Arms, k, id);
    EffectIsFirstMatchingArm(id);
  }

  /** Ids in no arm (505-510, 512-519, 0, ...) give no effect. */
  lemma EffectOutsideArms(id: int)
    requires forall k :: 0 <= k < |Arms| ==> !InArm(Arms[k], id)
    ensures Effect(Some(id)) == NoEffect
  {
    assert !InArm(Arms[0], id) && !InArm(Arms[1], id) && !InArm(Arms[2], id);
    assert !InArm(Arms[3], id) && !InArm(Arms[4], id) && !InArm(Arms[5], id);
    assert !InArm(Arms[6], id) && !InArm(Arms[8], id);
  }

  /** `effect(forPreviewAsset:)`: an unknown or missing name gives no answer. */
  function EffectForPreviewAsset(asset: Option<string>): (r: Option<EffectKind>)
    ensures r.Some? <==>
      (asset.Some? && asset.value in ["rain", "snow", "fog", "partly_cloudy", "cloudy", "clear"])
    ensures r == Some(Leaves) <==> asset == Some("partly_cloudy") || asset == Some("cloudy")
    ensures asset == Some("rain") ==> r == Some(Rain(false))
    ensures asset == Some("snow") ==> r == Some(Snow)
    ensures asset == Some("fog") ==> r == Some(Fog)
    ensures asset == Some("clear") ==> r == Some(NoEffect)
  {
    match asset
    case None => None
    case Some(name) =>
      if name == "rain" then Some(Rain(false))
      else if name == "snow" then Some(Snow)
      else if name == "fog" then Some(Fog)
      else if name == "partly_cloudy" || name == "cloudy" then Some(Leaves)
      else if name == "clear" then Some(NoEffect)
      else None
  }

  /**
   * Every effect a preview asset selects is one that some real condition id
   * also selects, and "clear" yields the effect `.none`, not a missing answer.
   */
  lemma PreviewAssetAgreesWithConditionIds(asset: Option<string>)
    ensures EffectForPreviewAsset(asset).Some? ==>
      exists id :: Effect(Some(id)) == EffectForPreviewAsset(asset).value
    ensures EffectForPreviewAsset(Some("clear")) == Some(NoEffect) != EffectForPreviewAsset(None)
  {
    match EffectForPreviewAsset(asset)
    case None =>
    case Some(k) =>
      var id := match k
        case Rain(_) => 500
        case Snow => 600
        case Fog => 701
        case Leaves => 803
        case _ => 800;
      assert Effect(Some(id)) == k;
  }

  /** `isNight(for:)`, given the hour of the date. */
  function IsNight(hour: int): (r: bool)
    requires 0 <= hour < 24
    ensures r <==> !(6 <= hour < 20)
  {
    hour >= 20 || hour < 6
  }
}
