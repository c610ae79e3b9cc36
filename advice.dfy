/**
 * The recommendation engine: a first-match, case-sensitive keyword classifier
 * over the weather text the gateway returns (`GetWeatherRecommendation`).
 */
module Advice {
  import opened Strings

  const UmbrellaAdvice := "Не забудьте взяти парасольку!"
  const SunnyAdvice := "Сьогодні гарна погода, насолоджуйтесь сонцем!"
  const JacketAdvice := "Можливо, знадобиться легка куртка."
  const WarmAdvice := "Одягайтесь тепло, на вулиці сніг!"
  const FallbackAdvice := "Сьогодні погода неочікувана, будьте готові до всього!"

  /** The keyword vocabulary in the order it is tried. */
  const Keywords := ["rain", "clear", "clouds", "snow"]

  function Recommendation(weather: string): (r: string)
    ensures r in [UmbrellaAdvice, SunnyAdvice, JacketAdvice, WarmAdvice, FallbackAdvice]
  {
    if Contains(weather, "rain") then UmbrellaAdvice
    else if Contains(weather, "clear") then SunnyAdvice
    else if Contains(weather, "clouds") then JacketAdvice
    else if Contains(weather, "snow") then WarmAdvice
    else FallbackAdvice
  }

  /** The advice for keyword number `k` of the vocabulary. */
  function AdviceFor(k: nat): string
    requires k < |Keywords|
  {
    [UmbrellaAdvice, SunnyAdvice, JacketAdvice, WarmAdvice][k]
  }

  /** Classification stated against substring occurrence: the advice is that of
      the first keyword of the vocabulary occurring in the text, and the
      fallback when none occurs. */
  lemma RecommendationSpec(weather: string)
    ensures forall k :: 0 <= k < |Keywords| && Occurs(weather, Keywords[k])
              && (forall j :: 0 <= j < k ==> !Occurs(weather, Keywords[j]))
              ==> Recommendation(weather) == AdviceFor(k)
    ensures (forall k :: 0 <= k < |Keywords| ==> !Occurs(weather, Keywords[k]))
              <==> Recommendation(weather) == FallbackAdvice
  {
    ContainsIffOccurs(weather, "rain");
    ContainsIffOccurs(weather, "clear");
    ContainsIffOccurs(weather, "clouds");
    ContainsIffOccurs(weather, "snow");
    assert Keywords[0] == "rain" && Keywords[1] == "clear";
    assert Keywords[2] == "clouds" && Keywords[3] == "snow";
  }

  /** "rain" wins over every later keyword, "snow" included. */
  lemma RainWins(weather: string)
    requires Occurs(weather, "rain")
    ensures Recommendation(weather) == UmbrellaAdvice
  {
    ContainsIffOccurs(weather, "rain");
  }

  /** A text with none of the keywords gets the generic advice. */
  lemma NoKeywordFallback(weather: string)
    requires !Occurs(weather, "rain") && !Occurs(weather, "clear")
    requires !Occurs(weather, "clouds") && !Occurs(weather, "snow")
    ensures Recommendation(weather) == FallbackAdvice
  {
    ContainsIffOccurs(weather, "rain");
    ContainsIffOccurs(weather, "clear");
    ContainsIffOccurs(weather, "clouds");
    ContainsIffOccurs(weather, "snow");
  }

  /** Sample texts with a keyword. */
  lemma SampleRain()
    ensures Recommendation("light rain") == UmbrellaAdvice
  {
  }

  lemma SampleClear()
    ensures Recommendation("clear sky") == SunnyAdvice
  {
    MissingCharNotContained("clear sky", "rain", 3);
    assert "clear" <= "clear sky";
  }

  /** Texts without any keyword; "Rain" is one, because matching is case-sensitive. */
  lemma SamplesWithoutKeyword()
    ensures Recommendation("foggy") == FallbackAdvice
    ensures Recommendation("Rain") == FallbackAdvice
  {
    MissingCharNotContained("foggy", "rain", 0);
    MissingCharNotContained("foggy", "clear", 0);
    MissingCharNotContained("foggy", "clouds", 0);
    MissingCharNotContained("foggy", "snow", 0);
    MissingCharNotContained("Rain", "rain", 0);
    MissingCharNotContained("Rain", "clear", 0);
    MissingCharNotContained("Rain", "clouds", 0);
    MissingCharNotContained("Rain", "snow", 0);
  }
}
