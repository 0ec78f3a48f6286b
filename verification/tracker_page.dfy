/** The tracker page (application/frontend/src/pages/Tracker.jsx): the
    form's initial values and option lists, the change handler, and the
    predict handler's payload and state updates. */
module TrackerPage {

  import opened Wrappers
  import opened Text
  import opened Api
  import opened Ui
  import Tables
  import TrackerRouter

  const SleepQualityOptions: seq<string> := ["Poor", "Fair", "Good", "Excellent"]
  const WeatherOptions: seq<string> := ["Cloudy", "Rainy", "Sunny"]
  const DietQualityOptions: seq<string> := ["Average", "Good", "Poor"]

  /** The form values, keyed by input name. */
  type Input = map<string, Value>

  const InitialInput: Input := map[
    "sleepHours" := Num(7.5), "sleepQuality" := Str("Good"), "screenTime" := Num(5.0),
    "physicalActivity" := Num(30.0), "socialInteraction" := Num(3.0), "workProductivity" := Num(7.0),
    "weather" := Str("Sunny"), "dietQuality" := Str("Good")]

  /** Each select starts on one of its own options. */
  lemma InitialChoicesAreOptions()
    ensures InitialInput["sleepQuality"] == Str("Good") && "Good" in SleepQualityOptions
    ensures InitialInput["weather"] == Str("Sunny") && "Sunny" in WeatherOptions
    ensures InitialInput["dietQuality"] == Str("Good") && "Good" in DietQualityOptions
  {
  }

  /** `handleChange`: sets the named field, through `Number` for number
      inputs; no other field changes. */
  function HandleChange(input: Input, name: string, value: string, inputType: string): (r: Input)
    ensures r.Keys == input.Keys + {name}
    ensures inputType == "number" ==> r[name] == NumberOf(value)
    ensures inputType != "number" ==> r[name] == Str(value)
    ensures forall k :: k in input && k != name ==> r[k] == input[k]
  {
    input[name := if inputType == "number" then NumberOf(value) else Str(value)]
  }

  /** Form field names and the payload keys they are sent under. */
  const Renaming: seq<(string, string)> := [
    ("sleepHours", "sleep_hours"), ("sleepQuality", "sleep_quality"),
    ("screenTime", "screen_time"), ("physicalActivity", "physical_activity"),
    ("socialInteraction", "social_interaction"), ("workProductivity", "work_productivity"),
    ("weather", "weather"), ("dietQuality", "diet_quality")]

  /** The renaming is one-to-one. */
  lemma RenamingIsOneToOne()
    ensures |Renaming| == 8
    ensures forall i, j :: 0 <= i < j < |Renaming| ==> Renaming[i].0 != Renaming[j].0 && Renaming[i].1 != Renaming[j].1
  {
  }

  /** No two pairs send under the same payload key. */
  predicate DistinctKeys(names: seq<(string, string)>) {
    forall i, j :: 0 <= i < j < |names| ==> names[i].1 != names[j].1
  }

  /** The payload built from the pairs `names` of field name and payload
      key; `JSON.stringify` drops keys whose value is undefined. */
  function PayloadFrom(input: Input, names: seq<(string, string)>): (r: map<string, Value>)
    requires DistinctKeys(names)
    ensures forall k :: k in r ==> exists j :: 0 <= j < |names| && names[j].1 == k
    ensures forall j :: 0 <= j < |names| && names[j].0 in input
                        ==> names[j].1 in r && r[names[j].1] == input[names[j].0]
    ensures forall j :: 0 <= j < |names| && names[j].0 !in input ==> names[j].1 !in r
    decreases |names|
  {
    if names == [] then map[]
    else
      var rest := PayloadFrom(input, names[1..]);
      var (camel, snake) := names[0];
      if camel in input then rest[snake := input[camel]] else rest
  }

  /** The payload of `handlePredict`. */
  function Payload(input: Input): map<string, Value> {
    RenamingIsOneToOne();
    PayloadFrom(input, Renaming)
  }

  /** A change to a form field reaches the payload under that field's
      snake_case key, and no other key of the payload moves. */
  lemma ChangeReachesPayload(input: Input, j: nat, k: nat, value: string, inputType: string)
    requires j < |Renaming| && k < |Renaming|
    ensures var after := HandleChange(input, Renaming[j].0, value, inputType);
            && Renaming[j].1 in Payload(after)
            && Payload(after)[Renaming[j].1] == (if inputType == "number" then NumberOf(value) else Str(value))
    ensures var after := HandleChange(input, Renaming[j].0, value, inputType);
            k != j ==> (Renaming[k].1 in Payload(after) <==> Renaming[k].1 in Payload(input))
    ensures var after := HandleChange(input, Renaming[j].0, value, inputType);
            k != j && Renaming[k].0 in input ==> Payload(after)[Renaming[k].1] == Payload(input)[Renaming[k].1]
  {
    RenamingIsOneToOne();
  }

  /** From the initial form and any series of changes, every payload key
      is present and holds the value of its form field. */
  lemma PayloadCarriesForm(input: Input)
    requires InitialInput.Keys <= input.Keys
    ensures Payload(input).Keys == set j | 0 <= j < |Renaming| :: Renaming[j].1
    ensures forall j :: 0 <= j < |Renaming| ==> Payload(input)[Renaming[j].1] == input[Renaming[j].0]
  {
    InitialCoversRenaming();
    RenamingIsOneToOne();
    FullPayloadKeys(input, Renaming);
  }

  /** When every field is set, the payload's keys are exactly the payload
      names. */
  lemma FullPayloadKeys(input: Input, names: seq<(string, string)>)
    requires DistinctKeys(names)
    requires forall j :: 0 <= j < |names| ==> names[j].0 in input
    ensures PayloadFrom(input, names).Keys == set j | 0 <= j < |names| :: names[j].1
  {
    var p := PayloadFrom(input, names);
    forall k | k in p ensures k in set j | 0 <= j < |names| :: names[j].1 {
      var j :| 0 <= j < |names| && names[j].1 == k;
    }
  }

  /** The initial form has every field the payload renames. */
  lemma InitialCoversRenaming()
    ensures forall j :: 0 <= j < |Renaming| ==> Renaming[j].0 in InitialInput
  {
  }

  /** The result panel: the two scores as received. */
  datatype Scores = Scores(moodScore: Option<real>, stressLevel: Option<real>)

  /** The page state besides the form. */
  datatype View = View(input: Input, result: Option<Scores>, aiMarkdown: string, loading: bool)

  /** The fields of the predict reply the handler reads; absent and `null`
      are both None. */
  datatype PredictReply = PredictReply(
    moodScore: Option<real>, stressLevel: Option<real>, aiRecommendation: Option<string>, detail: Option<string>)

  datatype PredictOutcome = PredictOutcome(sent: Request, view: View, toast: Toast)

  const PredictFailed := "Failed to predict mental health status."

  /** `handlePredict` as written: a `detail` reply returns before
      `setLoading(false)`, so the button stays disabled. */
  function PredictAsWritten(v: View, store: TokenStore, resp: Response<PredictReply>): (r: PredictOutcome)
    ensures r.sent.verb == Post && r.sent.path == "/tracker/predict" && r.sent.body == JsonBody(Payload(v.input))
    ensures r.view.input == v.input
    ensures Settle(resp).Ok? && Truthy(Settle(resp).value.detail) ==>
              r.view == v.(loading := true) && r.toast == InfoToast(Settle(resp).value.detail.value)
    ensures Settle(resp).Ok? && !Truthy(Settle(resp).value.detail) ==>
              var d := Settle(resp).value;
              && r.view.result == Some(Scores(d.moodScore, d.stressLevel))
              && r.view.aiMarkdown == (if Truthy(d.aiRecommendation) then d.aiRecommendation.value else "")
              && !r.view.loading
    ensures Settle(resp).Err? ==>
              r.view == v.(result := None, aiMarkdown := "", loading := false) && r.toast == ErrorToast(PredictFailed)
  {
    var ex := PostData(store, "/tracker/predict", JsonBody(Payload(v.input)), resp);
    var busy := v.(loading := true);
    match ex.result
    case Err(_) => PredictOutcome(ex.sent, busy.(result := None, aiMarkdown := "", loading := false), ErrorToast(PredictFailed))
    case Ok(d) =>
      if Truthy(d.detail) then PredictOutcome(ex.sent, busy, InfoToast(d.detail.value))
      else
        var markdown := if Truthy(d.aiRecommendation) then d.aiRecommendation.value else "";
        PredictOutcome(ex.sent, busy.(result := Some(Scores(d.moodScore, d.stressLevel)), aiMarkdown := markdown, loading := false), NoToast)
  }

  /** `handlePredict` with loading cleared on every path: a `detail` reply
      leaves result and markdown as they were. */
  function Predict(v: View, store: TokenStore, resp: Response<PredictReply>): (r: PredictOutcome)
    ensures !r.view.loading
    ensures r.sent == PredictAsWritten(v, store, resp).sent && r.toast == PredictAsWritten(v, store, resp).toast
    ensures Settle(resp).Ok? && Truthy(Settle(resp).value.detail) ==> r.view == v.(loading := false)
    ensures !(Settle(resp).Ok? && Truthy(Settle(resp).value.detail)) ==> r == PredictAsWritten(v, store, resp)
  {
    var written := PredictAsWritten(v, store, resp);
    written.(view := written.view.(loading := false))
  }

  /** How the backend's reply reads on the client: the `PredictOutput`
      schema sends every field, `null` where unset. */
  function OnWire(reply: TrackerRouter.PredictReply): PredictReply {
    match reply
    case Detail(d) => PredictReply(None, None, None, Some(d))
    case Predicted(m, s, a, _) => PredictReply(Some(m), Some(s), Some(a), None)
  }

  /** A second prediction on one day leaves the page as written stuck
      loading, while the corrected handler clears it and keeps the shown
      result. */
  lemma SecondPredictionSameDay(
    entries: seq<Tables.Entry>, userId: int, input: Tables.TrackerInput, today: nat, storedDay: nat,
    mood: real, stress: real, advice: string, v: View, store: TokenStore)
    requires Tables.HasEntryOn(entries, userId, today)
    ensures var reply := TrackerRouter.Predict(entries, userId, input, today, storedDay, mood, stress, advice).reply;
            var resp := Answered(201, OnWire(reply));
            && PredictAsWritten(v, store, resp).view.loading
            && Predict(v, store, resp).view == v.(loading := false)
  {
  }
}
