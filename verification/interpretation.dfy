/** Score interpretation and model input of the Streamlit app
    (streamlit/app.py). Scores are compared, never computed with, so they
    are reals. */
module Interpretation {

  import TrackerPage

  /** The four mood bands, best first. */
  datatype MoodBand = ExcellentMood | GoodMood | ModerateMood | LowMood

  /** The four stress bands, least severe first. */
  datatype StressBand = LowStress | ModerateStress | HighStress | VeryHighStress

  /** Rank of a mood band: higher is better. */
  function MoodRank(b: MoodBand): nat {
    match b
    case LowMood => 0
    case ModerateMood => 1
    case GoodMood => 2
    case ExcellentMood => 3
  }

  /** Rank of a stress band: higher is more severe. */
  function StressRank(b: StressBand): nat {
    match b
    case LowStress => 0
    case ModerateStress => 1
    case HighStress => 2
    case VeryHighStress => 3
  }

  /** `get_mood_interpretation`, as a band: inclusive lower bounds 8, 6, 4. */
  function MoodBandOf(score: real): (b: MoodBand)
    ensures b == ExcellentMood <==> score >= 8.0
    ensures b == GoodMood <==> 6.0 <= score < 8.0
    ensures b == ModerateMood <==> 4.0 <= score < 6.0
    ensures b == LowMood <==> score < 4.0
  {
    if score >= 8.0 then ExcellentMood
    else if score >= 6.0 then GoodMood
    else if score >= 4.0 then ModerateMood
    else LowMood
  }

  /** `get_stress_interpretation`, as a band: inclusive upper bounds 3, 5, 7. */
  function StressBandOf(score: real): (b: StressBand)
    ensures b == LowStress <==> score <= 3.0
    ensures b == ModerateStress <==> 3.0 < score <= 5.0
    ensures b == HighStress <==> 5.0 < score <= 7.0
    ensures b == VeryHighStress <==> score > 7.0
  {
    if score <= 3.0 then LowStress
    else if score <= 5.0 then ModerateStress
    else if score <= 7.0 then HighStress
    else VeryHighStress
  }

  function MoodText(b: MoodBand): string {
    match b
    case ExcellentMood => "Excellent mood! 🌟"
    case GoodMood => "Good mood 😊"
    case ModerateMood => "Moderate mood 😐"
    case LowMood => "Low mood - need attention 😔"
  }

  function StressText(b: StressBand): string {
    match b
    case LowStress => "Low stress - great! 😌"
    case ModerateStress => "Moderate stress 😐"
    case HighStress => "High stress - be careful ⚠️"
    case VeryHighStress => "Very high stress - seek help! 🚨"
  }

  /** The label texts are distinct, so each label names one band. */
  lemma TextsDistinct(a: MoodBand, b: MoodBand, c: StressBand, d: StressBand)
    ensures MoodText(a) == MoodText(b) ==> a == b
    ensures StressText(c) == StressText(d) ==> c == d
  {
  }

  /** A higher mood score never gets a worse band. */
  lemma MoodMonotone(x: real, y: real)
    requires x <= y
    ensures MoodRank(MoodBandOf(x)) <= MoodRank(MoodBandOf(y))
  {
  }

  /** A higher stress score never gets a less severe band. */
  lemma StressMonotone(x: real, y: real)
    requires x <= y
    ensures StressRank(StressBandOf(x)) <= StressRank(StressBandOf(y))
  {
  }

  /** `prepare_input_data` before scaling: the eight features in the
      model's order, with the three categories encoded by the fitted
      label encoders. */
  function Features(
    sleepHours: real, sleepQuality: string, screenTime: real, physicalActivity: real,
    socialInteraction: real, workProductivity: real, weather: string, dietQuality: string,
    encodeSleep: string -> real, encodeWeather: string -> real, encodeDiet: string -> real): seq<real>
  {
    [sleepHours, encodeSleep(sleepQuality), screenTime, physicalActivity,
     socialInteraction, workProductivity, encodeWeather(weather), encodeDiet(dietQuality)]
  }

  /** The feature names, in the order of the model's input columns. */
  const FeatureOrder: seq<string> := [
    "sleep_hours", "sleep_quality", "screen_time", "physical_activity",
    "social_interaction", "work_productivity", "weather", "diet_quality"]

  /** Position i of the vector holds the feature `FeatureOrder[i]`, which
      is also the key the web client sends it under. */
  lemma FeaturesFollowOrder(
    sleepHours: real, sleepQuality: string, screenTime: real, physicalActivity: real,
    socialInteraction: real, workProductivity: real, weather: string, dietQuality: string,
    encodeSleep: string -> real, encodeWeather: string -> real, encodeDiet: string -> real)
    ensures var v := Features(sleepHours, sleepQuality, screenTime, physicalActivity, socialInteraction,
                              workProductivity, weather, dietQuality, encodeSleep, encodeWeather, encodeDiet);
            && |v| == |FeatureOrder| == 8
            && v[0] == sleepHours && v[1] == encodeSleep(sleepQuality) && v[2] == screenTime
            && v[3] == physicalActivity && v[4] == socialInteraction && v[5] == workProductivity
            && v[6] == encodeWeather(weather) && v[7] == encodeDiet(dietQuality)
    ensures forall i :: 0 <= i < 8 ==> FeatureOrder[i] == TrackerPage.Renaming[i].1
  {
  }

  const SleepQualityChoices: seq<string> := ["Poor", "Fair", "Good", "Excellent"]
  const WeatherChoices: seq<string> := ["Cloudy", "Rainy", "Sunny"]
  const DietQualityChoices: seq<string> := ["Average", "Good", "Poor"]

  /** The Streamlit select boxes offer what the web form offers, in the
      same order. */
  lemma ChoicesMatchWebForm()
    ensures SleepQualityChoices == TrackerPage.SleepQualityOptions
    ensures WeatherChoices == TrackerPage.WeatherOptions
    ensures DietQualityChoices == TrackerPage.DietQualityOptions
  {
  }
}
