/** Tracker routes (application/backend/routers/tracker_router.py): the
    once-a-day prediction, the five-entry history and the CSV export. The
    prediction model's scores and the AI recommendation are inputs. */
module TrackerRouter {

  import opened Tables
  import opened Sorting

  const AlreadyPredicted :=
    "Prediction for today already exists. Please wait until tomorrow to make a new prediction."

  /** The reply of `POST /tracker/predict`. */
  datatype PredictReply =
    | Detail(detail: string)
    | Predicted(moodScore: real, stressLevel: real, aiRecommendation: string, date: nat)

  datatype PredictResult = PredictResult(entries: seq<Entry>, reply: PredictReply)

  /** `predict` for the current user, given the scores the model produced
      and the recommendation text. The route reads the clock twice: `today`
      is the day it checks for an earlier entry, `storedDay` the day it
      stamps on the new one, read after the model and the AI call return. */
  function Predict(entries: seq<Entry>, userId: int, input: TrackerInput, today: nat, storedDay: nat,
                   mood: real, stress: real, advice: string): (r: PredictResult)
    ensures HasEntryOn(entries, userId, today) ==> r == PredictResult(entries, Detail(AlreadyPredicted))
    ensures !HasEntryOn(entries, userId, today) ==>
              && |r.entries| == |entries| + 1
              && r.entries[..|entries|] == entries
              && r.entries[|entries|] == Entry(userId, storedDay, input, mood, stress, advice)
              && r.reply.Predicted?
    ensures r.reply.Predicted? ==>
              var stored := r.entries[|r.entries| - 1];
              && |r.entries| > 0
              && r.reply.moodScore == stored.moodScore
              && r.reply.stressLevel == stored.stressLevel
              && r.reply.aiRecommendation == stored.aiRecommendation
              && r.reply.date == stored.date == storedDay
    ensures OnePerDay(entries) && (storedDay == today || !HasEntryOn(entries, userId, storedDay))
            ==> OnePerDay(r.entries)
  {
    if HasEntryOn(entries, userId, today) then PredictResult(entries, Detail(AlreadyPredicted))
    else
      var e := Entry(userId, storedDay, input, mood, stress, advice);
      OnePerDaySnoc(entries, e);
      PredictResult(entries + [e], Predicted(mood, stress, advice, storedDay))
  }

  /** Appending an entry for a day its user has no entry on keeps at most
      one entry per user per day. */
  lemma OnePerDaySnoc(entries: seq<Entry>, e: Entry)
    ensures OnePerDay(entries) && !HasEntryOn(entries, e.userId, e.date) ==> OnePerDay(entries + [e])
  {
    if OnePerDay(entries) && !HasEntryOn(entries, e.userId, e.date) {
      var r := entries + [e];
      forall i, j | 0 <= i < j < |r| && r[i].userId == r[j].userId
        ensures r[i].date != r[j].date
      {
        assert r[i] == entries[i];
        if j == |entries| { assert r[i] in entries; }
        else { assert r[j] == entries[j]; }
      }
    }
  }

  /** One call of `POST /tracker/predict`, with the day of each of its two
      clock reads. */
  datatype PredictCall = PredictCall(userId: int, input: TrackerInput, today: nat, storedDay: nat,
                                     mood: real, stress: real, advice: string)

  function PredictAll(entries: seq<Entry>, calls: seq<PredictCall>): seq<Entry>
    decreases |calls|
  {
    if calls == [] then entries
    else
      var c := calls[0];
      PredictAll(Predict(entries, c.userId, c.input, c.today, c.storedDay, c.mood, c.stress, c.advice).entries,
                 calls[1..])
  }

  /** No entry is dated after `day`. */
  predicate NotAfter(entries: seq<Entry>, day: nat) {
    forall e :: e in entries ==> e.date <= day
  }

  /** Calls run one after another on a clock that does not go back: each
      call's second read is no earlier than its first, and no later than
      any later call's first. */
  predicate ClockRuns(calls: seq<PredictCall>) {
    && (forall i :: 0 <= i < |calls| ==> calls[i].today <= calls[i].storedDay)
    && (forall i, j :: 0 <= i < j < |calls| ==> calls[i].storedDay <= calls[j].today)
  }

  /** With `predict` as the only writer, called one request at a time on a
      clock that does not go back, no user ever has two entries on one
      day, even when a request starts before midnight and stores the next
      day. */
  lemma {:induction false} PredictAllOnePerDay(entries: seq<Entry>, calls: seq<PredictCall>)
    requires OnePerDay(entries) && ClockRuns(calls)
    requires calls != [] ==> NotAfter(entries, calls[0].today)
    ensures OnePerDay(PredictAll(entries, calls))
    decreases |calls|
  {
    if calls != [] {
      var c := calls[0];
      assert c.storedDay == c.today || !HasEntryOn(entries, c.userId, c.storedDay);
      var next := Predict(entries, c.userId, c.input, c.today, c.storedDay, c.mood, c.stress, c.advice).entries;
      var rest := calls[1..];
      assert ClockRuns(rest) by {
        forall i | 0 <= i < |rest| ensures rest[i].today <= rest[i].storedDay {
          assert rest[i] == calls[i + 1];
        }
        forall i, j | 0 <= i < j < |rest| ensures rest[i].storedDay <= rest[j].today {
          assert rest[i] == calls[i + 1] && rest[j] == calls[j + 1];
        }
      }
      if rest != [] {
        assert c.storedDay <= rest[0].today by { assert rest[0] == calls[1]; }
        forall e | e in next ensures e.date <= rest[0].today {
          if e !in entries {
            assert next == entries + [next[|entries|]];
          }
        }
      }
      PredictAllOnePerDay(next, rest);
    }
  }

  const HistoryLimit := 5

  /** The at most five newest elements of `s`, oldest first. */
  function Latest(s: seq<Entry>): (r: seq<Entry>)
    ensures |r| == if |s| < HistoryLimit then |s| else HistoryLimit
    ensures Sorted(r, false)
    ensures multiset(r) <= multiset(s)
    ensures forall x, e :: x in r && e in multiset(s) - multiset(r) ==> e.date <= x.date
  {
    var newest := Sort(s, true);
    var window := if |newest| > HistoryLimit then newest[..HistoryLimit] else newest;
    WindowIsLatest(newest, window);
    ReverseFlips(window, true);
    Reverse(window)
  }

  /** `get_prediction_history`: the user's entries newest first, cut to
      five, then reversed. */
  function History(entries: seq<Entry>, userId: int): (r: seq<Entry>)
    ensures var mine := EntriesOf(entries, userId);
            |r| == if |mine| < HistoryLimit then |mine| else HistoryLimit
    ensures forall e :: e in r ==> e in entries && e.userId == userId
    ensures Sorted(r, false)
    ensures multiset(r) <= multiset(EntriesOf(entries, userId))
    ensures forall x, e :: x in r && e in multiset(EntriesOf(entries, userId)) - multiset(r) ==> e.date <= x.date
  {
    var mine := EntriesOf(entries, userId);
    var r := Latest(mine);
    assert forall e :: e in r ==> e in mine by {
      forall e | e in r ensures e in mine {
        assert e in multiset(r);
        assert e in multiset(mine);
      }
    }
    r
  }

  /** A prefix of a newest-first sequence is sorted, and nothing left out
      of it is newer than anything in it. */
  lemma WindowIsLatest(newest: seq<Entry>, window: seq<Entry>)
    requires Sorted(newest, true)
    requires |window| <= |newest| && window == newest[..|window|]
    ensures Sorted(window, true)
    ensures multiset(window) <= multiset(newest)
    ensures forall x, e :: x in window && e in multiset(newest) - multiset(window) ==> e.date <= x.date
  {
    var rest := newest[|window|..];
    assert newest == window + rest;
    assert multiset(newest) - multiset(window) == multiset(rest);
    PrefixNewer(newest, |window|);
  }

  lemma PrefixNewer(newest: seq<Entry>, k: nat)
    requires Sorted(newest, true) && k <= |newest|
    ensures forall x, e :: x in newest[..k] && e in newest[k..] ==> e.date <= x.date
  {
    forall x, e | x in newest[..k] && e in newest[k..] ensures e.date <= x.date {
      var i :| 0 <= i < k && newest[..k][i] == x;
      var j :| 0 <= j < |newest| - k && newest[k..][j] == e;
      assert InOrder(newest[i], newest[k + j], true);
    }
  }

  /** A cell of the CSV export, before `csv.writer` renders it. */
  datatype Cell = DateCell(day: nat) | RealCell(r: real) | IntCell(n: int) | TextCell(s: string)

  const ExportHeader: seq<string> := [
    "created_at", "sleep_hours", "sleep_quality", "screen_time",
    "physical_activity", "social_interaction", "work_productivity_score",
    "weather", "diet_quality", "mood_score", "stress_level", "ai_recommendation"]

  /** The data row written for one entry. */
  function ExportRow(e: Entry): seq<Cell> {
    [DateCell(e.date), RealCell(e.input.sleepHours), TextCell(e.input.sleepQuality),
     RealCell(e.input.screenTime), IntCell(e.input.physicalActivity),
     RealCell(e.input.socialInteraction), IntCell(e.input.workProductivity),
     TextCell(e.input.weather), TextCell(e.input.dietQuality),
     RealCell(e.moodScore), RealCell(e.stressLevel), TextCell(e.aiRecommendation)]
  }

  /** The entry attribute each header column names; the two columns whose
      name differs from the attribute are `created_at` (the entry's date)
      and `work_productivity_score`. */
  function Column(e: Entry, name: string): Wrappers.Option<Cell> {
    match name
    case "created_at" => Wrappers.Some(DateCell(e.date))
    case "sleep_hours" => Wrappers.Some(RealCell(e.input.sleepHours))
    case "sleep_quality" => Wrappers.Some(TextCell(e.input.sleepQuality))
    case "screen_time" => Wrappers.Some(RealCell(e.input.screenTime))
    case "physical_activity" => Wrappers.Some(IntCell(e.input.physicalActivity))
    case "social_interaction" => Wrappers.Some(RealCell(e.input.socialInteraction))
    case "work_productivity_score" => Wrappers.Some(IntCell(e.input.workProductivity))
    case "weather" => Wrappers.Some(TextCell(e.input.weather))
    case "diet_quality" => Wrappers.Some(TextCell(e.input.dietQuality))
    case "mood_score" => Wrappers.Some(RealCell(e.moodScore))
    case "stress_level" => Wrappers.Some(RealCell(e.stressLevel))
    case "ai_recommendation" => Wrappers.Some(TextCell(e.aiRecommendation))
    case _ => Wrappers.None
  }

  /** Field i of every row holds the attribute header column i names. */
  lemma RowMatchesHeader(e: Entry)
    ensures |ExportRow(e)| == |ExportHeader| == 12
    ensures forall i :: 0 <= i < |ExportHeader| ==> Column(e, ExportHeader[i]) == Wrappers.Some(ExportRow(e)[i])
  {
  }

  datatype CsvExport = CsvExport(filename: string, header: seq<string>, rows: seq<seq<Cell>>)

  function ExportFilename(username: string): string {
    "tracker_data_" + username + ".csv"
  }

  function Rows(es: seq<Entry>): (r: seq<seq<Cell>>)
    ensures |r| == |es|
    ensures forall i :: 0 <= i < |es| ==> r[i] == ExportRow(es[i])
  {
    if es == [] then [] else [ExportRow(es[0])] + Rows(es[1..])
  }

  /** The user's entries, oldest first, as the export lists them. */
  function ExportOrder(entries: seq<Entry>, userId: int): (r: seq<Entry>)
    ensures Sorted(r, false)
    ensures multiset(r) == multiset(EntriesOf(entries, userId))
  {
    Sort(EntriesOf(entries, userId), false)
  }

  /** `export_tracker_csv`: the header, then one row per entry of the user,
      oldest first. */
  function Export(entries: seq<Entry>, userId: int, username: string): (r: CsvExport)
    ensures r.filename == "tracker_data_" + username + ".csv"
    ensures r.header == ExportHeader
    ensures |r.rows| == |EntriesOf(entries, userId)|
    ensures forall i :: 0 <= i < |r.rows| ==> r.rows[i] == ExportRow(ExportOrder(entries, userId)[i])
  {
    CsvExport(ExportFilename(username), ExportHeader, Rows(ExportOrder(entries, userId)))
  }

  /** Every row is the row of one of the user's entries, has one field per
      header column, and rows go by ascending date. */
  lemma ExportRowsAscending(entries: seq<Entry>, userId: int, username: string)
    ensures var rows := Export(entries, userId, username).rows;
            && (forall i :: 0 <= i < |rows| ==> |rows[i]| == |ExportHeader|)
            && (forall i, j :: 0 <= i < j < |rows| ==> rows[i][0].DateCell? && rows[j][0].DateCell?
                                                        && rows[i][0].day <= rows[j][0].day)
  {
    var ordered := ExportOrder(entries, userId);
    var rows: seq<seq<Cell>> := Export(entries, userId, username).rows;
    forall i, j | 0 <= i < j < |rows| ensures rows[i][0].day <= rows[j][0].day {
      assert InOrder(ordered[i], ordered[j], false);
    }
  }

  /** Each row of the export is the row of an entry of that user. */
  lemma ExportRowsFromUser(entries: seq<Entry>, userId: int, username: string, i: int)
    requires 0 <= i < |Export(entries, userId, username).rows|
    ensures exists e :: e in entries && e.userId == userId && Export(entries, userId, username).rows[i] == ExportRow(e)
  {
    var ordered := ExportOrder(entries, userId);
    var e := ordered[i];
    assert e in multiset(ordered);
    assert e in EntriesOf(entries, userId);
  }
}
