/** The hour-to-gradient bucketing of the background view. */
module TimeOfDayGradient {
  import WeatherEffects

  datatype TimeOfDay = Sunrise | Noon | Sunset | Midnight

  /** `currentTimeOfDay`, given the hour of the current date. */
  function CurrentTimeOfDay(hour: int): (r: TimeOfDay)
    ensures r == Sunrise <==> 5 <= hour < 9
    ensures r == Noon <==> 9 <= hour < 16
    ensures r == Sunset <==> 16 <= hour < 20
    ensures r == Midnight <==> hour < 5 || hour >= 20
  {
    if 5 <= hour < 9 then Sunrise
    else if 9 <= hour < 16 then Noon
    else if 16 <= hour < 20 then Sunset
    else Midnight
  }

  /** The hours of a day that fall in bucket `t`, in increasing order. */
  function HoursOf(t: TimeOfDay, from: nat): seq<int>
    requires from <= 24
    decreases 24 - from
  {
    if from == 24 then []
    else if CurrentTimeOfDay(from) == t then [from] + HoursOf(t, from + 1)
    else HoursOf(t, from + 1)
  }

  /** The hours listed for bucket `t` from `from` on are exactly the later hours of the day in `t`. */
  lemma {:induction false} HoursOfMembers(t: TimeOfDay, from: nat, h: int)
    requires from <= 24
    ensures h in HoursOf(t, from) <==> from <= h < 24 && CurrentTimeOfDay(h) == t
    decreases 24 - from
  {
    if from < 24 {
      HoursOfMembers(t, from + 1, h);
    }
  }

  /** Each hour of the day falls in exactly one bucket. */
  lemma BucketsPartitionDay(hour: int)
    requires 0 <= hour < 24
    ensures hour in HoursOf(CurrentTimeOfDay(hour), 0)
    ensures forall t :: t != CurrentTimeOfDay(hour) ==> hour !in HoursOf(t, 0)
  {
    forall t
      ensures hour in HoursOf(t, 0) <==> CurrentTimeOfDay(hour) == t
    {
      HoursOfMembers(t, 0, hour);
    }
  }

  /**
   * Every midnight hour is a night hour for the particle layer, and the only
   * other night hour is 5, which the gradient already treats as sunrise.
   */
  lemma NightAndMidnight(hour: int)
    requires 0 <= hour < 24
    ensures CurrentTimeOfDay(hour) == Midnight ==> WeatherEffects.IsNight(hour)
    ensures WeatherEffects.IsNight(hour) <==> CurrentTimeOfDay(hour) == Midnight || hour == 5
    ensures WeatherEffects.IsNight(5) && CurrentTimeOfDay(5) == Sunrise
  {
  }
}
