/** The page (src/pages/Index.tsx): the five pieces of state it keeps, the
    search handler `handleCoinSearch` with its response classifier and its
    fallback to canned suggestions, and the conditions under which each
    result panel is shown.

    The network call is not modelled: its outcome is an input (`Outcome`).
    Clock readings (`Date.now()`) and ISO timestamps are inputs too. */
module Index {
  import opened Options
  import opened Json
  import opened JsString
  import opened WebhookResponse
  import TS = TradeSuggestions
  import TA = TradingAnalysis

  /** The two canned suggestions used whenever the webhook cannot be used. */
  const MockSuggestions: seq<TS.Suggestion> := [
    TS.Suggestion(
      "buy", 85, "$43,250", "$48,000", "$40,500",
      "Strong bullish momentum with RSI oversold conditions. Breaking above key resistance level with high volume. Technical indicators suggest continued upward movement.",
      "Short-term (1-3 days)"),
    TS.Suggestion(
      "hold", 72, "$43,250", "$45,500", "$41,000",
      "Market consolidation phase. Wait for clearer directional signals. Support level holding strong but lacking volume for significant breakout.",
      "Medium-term (1-2 weeks)")
  ]

  /** The canned suggestions as the JSON array the page stores. */
  const MockSuggestionsJson: Value := Arr([TS.ToJson(MockSuggestions[0]), TS.ToJson(MockSuggestions[1])])

  /** The raw data recorded after a failure: the canned suggestions and a
      `fallback` flag. */
  const FallbackRawData: Value := Obj(map["suggestions" := MockSuggestionsJson, "fallback" := Bool(true)])

  /** The message of the TypeError raised by reading `suggestions` of a
      `null` body. The wording is the one V8-based browsers use. */
  const NullBodyMessage: string := "Cannot read properties of null (reading 'suggestions')"

  /** A value thrown by `fetch`: an `Error` with its message, or some other
      value. */
  datatype Thrown = ErrorInstance(message: string) | NonErrorValue

  /** The result of `response.json()`: the parsed value, or the message of
      the SyntaxError it rejects with. */
  datatype Body = Parsed(value: Value) | Malformed(message: string)

  /** What the network gives back: a response, or a rejected `fetch`. */
  datatype Outcome =
    | Responded(status: int, statusText: string, body: Body)
    | Rejected(thrown: Thrown)

  /** What the `try` block ends with: the parsed data it classified, or the
      message of what it threw. */
  datatype TryResult = Completed(data: Value) | Threw(message: string)

  /** The lists and the diagnostic record a completed search leaves. */
  datatype Results = Results(suggestions: Value, analysis: seq<Value>, diagnostic: Diagnostic)

  /** A snapshot of the page's state. */
  datatype ViewState = ViewState(
    selectedCoin: string,
    suggestions: Value,
    webhookAnalysis: seq<Value>,
    isLoading: bool,
    webhookData: Option<Diagnostic>)

  /** Which of the three result panels are rendered. */
  datatype Panels = Panels(diagnostic: bool, analysis: bool, suggestions: bool)

  /** The toast shown at the end of a search. */
  datatype Notice = AnalysisComplete(coin: string) | UsingMockData

  /** `response.ok`. */
  predicate ResponseOk(status: int) {
    200 <= status <= 299
  }

  /** The message of the error thrown for a response that is not OK: it is
      never empty, names the status right after "HTTP " and ends with the
      status text. */
  function HttpErrorMessage(status: int, statusText: string): (m: string)
    ensures m != ""
    ensures |m| >= 5 && m[..5] == "HTTP "
    ensures OccursAt(m, IntToString(status), 5)
    ensures EndsWith(m, statusText)
  {
    var m := "HTTP " + IntToString(status) + ": " + statusText;
    assert m[..5] == "HTTP ";
    assert m[5..5 + |IntToString(status)|] == IntToString(status);
    assert m[|m| - |statusText|..] == statusText;
    m
  }

  /** The text the `catch` block records for a thrown value: an `Error`'s
      own message, and a non-empty placeholder for anything else. */
  function CaughtMessage(t: Thrown): (m: string)
    ensures t.ErrorInstance? ==> m == t.message
    ensures t.NonErrorValue? ==> m != ""
  {
    match t
    case ErrorInstance(m) => m
    case NonErrorValue => "Unknown error occurred"
  }

  /** The leveraged-analysis shape: an array whose first element has a
      truthy `output.ShortTerm`. Such an array is non-empty and its first
      element is an object. */
  function IsAnalysisShape(data: Value): (r: bool)
    ensures r ==> data.Arr? && |data.items| > 0 && data.items[0].Obj?
  {
    data.Arr? && TruthyOpt(Chain(Chain(First(data.items), "output"), "ShortTerm"))
  }

  /** The `try` block of `handleCoinSearch` after the `fetch`: it completes
      exactly for an OK status with a parsed body that is not `null`, and
      otherwise throws the error that the failing step raises. */
  function TryBlock(outcome: Outcome): (r: TryResult)
    ensures r.Completed? ==> outcome.Responded? && ResponseOk(outcome.status)
    ensures r.Completed? ==> outcome.body == Parsed(r.data) && !r.data.Null?
    ensures outcome.Responded? && ResponseOk(outcome.status) && outcome.body.Parsed? && !outcome.body.value.Null?
      ==> r == Completed(outcome.body.value)
    ensures outcome.Rejected? ==> r == Threw(CaughtMessage(outcome.thrown))
    ensures outcome.Responded? && !ResponseOk(outcome.status) ==> r == Threw(HttpErrorMessage(outcome.status, outcome.statusText))
    ensures outcome.Responded? && ResponseOk(outcome.status) && outcome.body.Malformed? ==> r == Threw(outcome.body.message)
    ensures outcome.Responded? && ResponseOk(outcome.status) && outcome.body == Parsed(Null) ==> r == Threw(NullBodyMessage)
  {
    match outcome
    case Rejected(t) => Threw(CaughtMessage(t))
    case Responded(status, statusText, body) =>
      if !ResponseOk(status) then Threw(HttpErrorMessage(status, statusText))
      else
        match body
        case Malformed(m) => Threw(m)
        case Parsed(data) =>
          if !IsAnalysisShape(data) && data.Null? then Threw(NullBodyMessage) else Completed(data)
  }

  /** The flat suggestions kept for a body that is not analysis-shaped:
      `data.suggestions || mockSuggestions`. */
  function FlatSuggestions(data: Value): (r: Value)
    ensures TruthyOpt(Prop(data, "suggestions")) ==> Some(r) == Prop(data, "suggestions")
    ensures !TruthyOpt(Prop(data, "suggestions")) ==> r == MockSuggestionsJson
  {
    var listed := Prop(data, "suggestions");
    if TruthyOpt(listed) then listed.value else MockSuggestionsJson
  }

  /** The state a search leaves, given the outcome, the measured response
      time and the completion timestamp: the two lists are never both
      non-empty, and the record is a success exactly when the `try` block
      completed, with the measured time and the completion timestamp. */
  function Settle(outcome: Outcome, responseTime: int, stamp: string): (r: Results)
    ensures |r.analysis| == 0 || r.suggestions == Arr([])
    ensures r.diagnostic.status == (if TryBlock(outcome).Completed? then Success else Error)
    ensures r.diagnostic.responseTime == Some(responseTime) && r.diagnostic.timestamp == Some(stamp)
  {
    match TryBlock(outcome)
    case Threw(message) =>
      Results(MockSuggestionsJson, [],
        Diagnostic(Error, Some(responseTime), Some(stamp), Some(FallbackRawData), Some(message)))
    case Completed(data) =>
      var success := Diagnostic(Success, Some(responseTime), Some(stamp), Some(data), None);
      if IsAnalysisShape(data) then Results(Arr([]), data.items, success)
      else Results(FlatSuggestions(data), [], success)
  }

  /** The panel conditions of the page: the diagnostic panel needs a record
      and a coin; the analysis panel a non-empty analysis and a coin; the
      suggestion panel a positive `suggestions.length`, a coin and an empty
      analysis. The last two are never shown together. */
  function PanelsOf(selectedCoin: string, suggestions: Value, analysis: seq<Value>, webhookData: Option<Diagnostic>): (p: Panels)
    ensures !(p.analysis && p.suggestions)
    ensures selectedCoin == "" ==> p == Panels(false, false, false)
    ensures p.diagnostic <==> webhookData.Some? && selectedCoin != ""
    ensures p.analysis ==> |analysis| > 0
    ensures selectedCoin != "" && |analysis| > 0 ==> p.analysis
    ensures p.suggestions ==> HasPositiveLength(suggestions) && |analysis| == 0
    ensures selectedCoin != "" && |analysis| == 0 && HasPositiveLength(suggestions) ==> p.suggestions
  {
    Panels(
      webhookData.Some? && selectedCoin != "",
      |analysis| > 0 && selectedCoin != "",
      HasPositiveLength(suggestions) && selectedCoin != "" && |analysis| == 0)
  }

  /** The page's state after one complete search for `coin`. */
  function AfterSearch(coin: string, outcome: Outcome, responseTime: int, stamp: string): ViewState {
    var s := Settle(outcome, responseTime, stamp);
    ViewState(coin, s.suggestions, s.analysis, false, Some(s.diagnostic))
  }

  class Dashboard {
    var selectedCoin: string
    var suggestions: Value
    var webhookAnalysis: seq<Value>
    var isLoading: bool
    var webhookData: Option<Diagnostic>
    /** The toast shown last, kept for specification only. */
    ghost var notice: Option<Notice>

    /** The suggestion list and the analysis are never both non-empty. */
    predicate ListsExclusive()
      reads this
    {
      |webhookAnalysis| == 0 || suggestions == Arr([])
    }

    function Snapshot(): ViewState
      reads this
    {
      ViewState(selectedCoin, suggestions, webhookAnalysis, isLoading, webhookData)
    }

    /** The initial state: no coin, empty lists, not loading, no record. */
    constructor ()
      ensures Snapshot() == ViewState("", Arr([]), [], false, None)
      ensures notice == None
      ensures ListsExclusive()
    {
      selectedCoin := "";
      suggestions := Arr([]);
      webhookAnalysis := [];
      isLoading := false;
      webhookData := None;
      notice := None;
    }

    /** The part of `handleCoinSearch` before the `fetch`: loading starts,
        the coin is selected and a pending record is written; the lists are
        not touched. Returns the start time read from the clock. */
    method BeginSearch(coin: string, now: int, stamp: string) returns (startTime: int)
      modifies this
      ensures isLoading && selectedCoin == coin
      ensures webhookData == Some(Diagnostic(Pending, None, Some(stamp), None, None))
      ensures suggestions == old(suggestions) && webhookAnalysis == old(webhookAnalysis)
      ensures notice == old(notice)
      ensures startTime == now
      ensures old(ListsExclusive()) ==> ListsExclusive()
    {
      isLoading := true;
      selectedCoin := coin;
      startTime := now;
      webhookData := Some(Diagnostic(Pending, None, Some(stamp), None, None));
    }

    /** The rest of `handleCoinSearch`, from the response to the `finally`:
        the lists and the record are replaced as `Settle` says, loading
        ends, the selected coin is left alone, and one toast is shown. */
    method CompleteSearch(coin: string, startTime: int, outcome: Outcome, now: int, stamp: string)
      modifies this
      ensures !isLoading && selectedCoin == old(selectedCoin)
      ensures var s := Settle(outcome, now - startTime, stamp);
        suggestions == s.suggestions && webhookAnalysis == s.analysis && webhookData == Some(s.diagnostic)
      ensures notice == Some(if TryBlock(outcome).Completed? then AnalysisComplete(coin) else UsingMockData)
      ensures ListsExclusive()
    {
      var responseTime := now - startTime;
      var thrown: Option<string> := None;
      match outcome {
        case Rejected(t) =>
          thrown := Some(CaughtMessage(t));
        case Responded(status, statusText, body) =>
          if ResponseOk(status) {
            match body {
              case Malformed(m) =>
                thrown := Some(m);
              case Parsed(data) =>
                if IsAnalysisShape(data) {
                  webhookAnalysis := data.items;
                  suggestions := Arr([]);
                } else if data.Null? {
                  thrown := Some(NullBodyMessage);
                } else {
                  suggestions := FlatSuggestions(data);
                  webhookAnalysis := [];
                }
                if thrown.None? {
                  webhookData := Some(Diagnostic(Success, Some(responseTime), Some(stamp), Some(data), None));
                  notice := Some(AnalysisComplete(coin));
                }
            }
          } else {
            thrown := Some(HttpErrorMessage(status, statusText));
          }
      }
      if thrown.Some? {
        suggestions := MockSuggestionsJson;
        webhookAnalysis := [];
        webhookData := Some(Diagnostic(Error, Some(responseTime), Some(stamp), Some(FallbackRawData), thrown));
        notice := Some(UsingMockData);
      }
      isLoading := false;
    }

    /** `handleCoinSearch` run to completion: the new state depends only on
        the coin, the outcome, the elapsed time and the last timestamp, not on
        the state before. */
    method HandleCoinSearch(coin: string, startedAt: int, startStamp: string, outcome: Outcome, finishedAt: int, finishStamp: string)
      modifies this
      ensures Snapshot() == AfterSearch(coin, outcome, finishedAt - startedAt, finishStamp)
      ensures notice == Some(if TryBlock(outcome).Completed? then AnalysisComplete(coin) else UsingMockData)
      ensures ListsExclusive()
    {
      var startTime := BeginSearch(coin, startedAt, startStamp);
      CompleteSearch(coin, startTime, outcome, finishedAt, finishStamp);
    }
  }

  /** Running the same search twice in a row leaves the same state both
      times: the lists are replaced, never merged. */
  method RepeatSearch(d: Dashboard, coin: string, startedAt: int, startStamp: string, outcome: Outcome, finishedAt: int, finishStamp: string)
    returns (first: ViewState, second: ViewState)
    modifies d
    ensures first == second == d.Snapshot()
  {
    d.HandleCoinSearch(coin, startedAt, startStamp, outcome, finishedAt, finishStamp);
    first := d.Snapshot();
    d.HandleCoinSearch(coin, startedAt, startStamp, outcome, finishedAt, finishStamp);
    second := d.Snapshot();
  }

  // ---------------------------------------------------------------------
  // Lemmas

  /** The canned list holds exactly two suggestions, a buy at 85 and a hold
      at 72, and the diagnostic panel counts two data points for it. */
  lemma MockSuggestionsShape()
    ensures MockSuggestionsJson.Arr? && |MockSuggestionsJson.items| == 2
    ensures TS.FromJson(MockSuggestionsJson.items[0]) == Some(MockSuggestions[0])
    ensures TS.FromJson(MockSuggestionsJson.items[1]) == Some(MockSuggestions[1])
    ensures MockSuggestions[0].kind == "buy" && MockSuggestions[0].confidence == 85
    ensures MockSuggestions[1].kind == "hold" && MockSuggestions[1].confidence == 72
    ensures DataPoints(Some(FallbackRawData)) == Num(2)
    ensures HasPositiveLength(MockSuggestionsJson)
  {
    TS.JsonRoundTrip(MockSuggestions[0]);
    TS.JsonRoundTrip(MockSuggestions[1]);
    FallbackDataPoints();
  }

  /** Helper: the fallback raw data lists the two canned suggestions. */
  lemma FallbackDataPoints()
    ensures DataPoints(Some(FallbackRawData)) == Num(2)
  {
    var n := Chain(Chain(Some(FallbackRawData), "suggestions"), "length");
    assert Chain(Some(FallbackRawData), "suggestions") == Some(MockSuggestionsJson);
    assert n == Some(Num(2));
  }

  /** Every failure (a rejected fetch, a status that is not OK, a body that
      is not JSON, a `null` body) falls back to the canned list, clears the
      analysis and records an error with the fallback raw data. */
  lemma FailureFallsBack(outcome: Outcome, responseTime: int, stamp: string)
    requires TryBlock(outcome).Threw?
    ensures var s := Settle(outcome, responseTime, stamp);
      && s.suggestions == MockSuggestionsJson
      && s.analysis == []
      && s.diagnostic.status == Error
      && s.diagnostic.responseTime == Some(responseTime)
      && s.diagnostic.rawData == Some(FallbackRawData)
      && s.diagnostic.error == Some(TryBlock(outcome).message)
  {
  }

  /** A status outside 200-299 is reported as "HTTP <status>: <text>", the
      message names the status, and the error section shows it. */
  lemma HttpErrorReported(status: int, statusText: string, body: Body, responseTime: int, stamp: string)
    requires !ResponseOk(status)
    ensures var s := Settle(Responded(status, statusText, body), responseTime, stamp);
      && s.diagnostic.error == Some("HTTP " + IntToString(status) + ": " + statusText)
      && Includes(s.diagnostic.error.value, IntToString(status))
      && ShowsError(s.diagnostic)
      && s.suggestions == MockSuggestionsJson
  {
  }

  /** A rejected `fetch` records the `Error`'s message, or "Unknown error
      occurred" for any other thrown value, and falls back to the canned
      list. */
  lemma RejectedFetchRecorded(t: Thrown, responseTime: int, stamp: string)
    ensures var s := Settle(Rejected(t), responseTime, stamp);
      && s.diagnostic.error == Some(if t.ErrorInstance? then t.message else "Unknown error occurred")
      && s.suggestions == MockSuggestionsJson
  {
  }

  /** A body that is not JSON records the parse error's message and falls
      back to the canned list, even with an OK status. */
  lemma MalformedBodyRecorded(status: int, statusText: string, message: string, responseTime: int, stamp: string)
    requires ResponseOk(status)
    ensures var s := Settle(Responded(status, statusText, Malformed(message)), responseTime, stamp);
      && s.diagnostic.status == Error
      && s.diagnostic.error == Some(message)
      && s.suggestions == MockSuggestionsJson
      && s.analysis == []
  {
  }

  /** A `null` body takes the error path. */
  lemma NullBodyFallsBack(status: int, statusText: string, responseTime: int, stamp: string)
    requires ResponseOk(status)
    ensures var s := Settle(Responded(status, statusText, Parsed(Null)), responseTime, stamp);
      s.diagnostic.status == Error && s.diagnostic.error == Some(NullBodyMessage) && s.suggestions == MockSuggestionsJson
  {
  }

  /** An analysis-shaped body becomes the analysis, the suggestion list is
      emptied, the record is a success holding the whole body, and the
      analysis panel's guard lets it render. */
  lemma AnalysisShapeShown(status: int, statusText: string, data: Value, responseTime: int, stamp: string)
    requires ResponseOk(status) && IsAnalysisShape(data)
    ensures var s := Settle(Responded(status, statusText, Parsed(data)), responseTime, stamp);
      && s.analysis == data.items && |s.analysis| > 0
      && s.suggestions == Arr([])
      && s.diagnostic == Diagnostic(Success, Some(responseTime), Some(stamp), Some(data), None)
      && TA.Subject(s.analysis).Some?
  {
    TruthyPropHolder(Chain(First(data.items), "output"), "ShortTerm");
  }

  /** Any other body that is not `null` empties the analysis and keeps
      `data.suggestions` when it is truthy (an empty array included), the
      canned list otherwise; the record is a success holding the body. */
  lemma FlatShapeShown(status: int, statusText: string, data: Value, responseTime: int, stamp: string)
    requires ResponseOk(status) && !IsAnalysisShape(data) && !data.Null?
    ensures var s := Settle(Responded(status, statusText, Parsed(data)), responseTime, stamp);
      && s.analysis == []
      && (TruthyOpt(Prop(data, "suggestions")) ==> Some(s.suggestions) == Prop(data, "suggestions"))
      && (!TruthyOpt(Prop(data, "suggestions")) ==> s.suggestions == MockSuggestionsJson)
      && s.diagnostic == Diagnostic(Success, Some(responseTime), Some(stamp), Some(data), None)
  {
  }

  /** `{suggestions: []}` keeps the empty list (an empty array is truthy), so
      after such a reply neither result panel is shown. */
  lemma EmptySuggestionListKept(coin: string, status: int, statusText: string, responseTime: int, stamp: string)
    requires ResponseOk(status)
    ensures var data := Obj(map["suggestions" := Arr([])]);
      var v := AfterSearch(coin, Responded(status, statusText, Parsed(data)), responseTime, stamp);
      && v.suggestions == Arr([])
      && !PanelsOf(v.selectedCoin, v.suggestions, v.webhookAnalysis, v.webhookData).analysis
      && !PanelsOf(v.selectedCoin, v.suggestions, v.webhookAnalysis, v.webhookData).suggestions
  {
    var data := Obj(map["suggestions" := Arr([])]);
    assert !IsAnalysisShape(data);
    var outcome := Responded(status, statusText, Parsed(data));
    assert TryBlock(outcome) == Completed(data);
    assert Settle(outcome, responseTime, stamp).suggestions == Arr([]);
  }

  /** After a search for a non-empty coin the diagnostic panel is shown; a
      failure shows the suggestion panel with the canned list, and an
      analysis-shaped success shows the analysis panel. */
  lemma PanelsAfterSearch(coin: string, outcome: Outcome, responseTime: int, stamp: string)
    requires coin != ""
    ensures var v := AfterSearch(coin, outcome, responseTime, stamp);
      var p := PanelsOf(v.selectedCoin, v.suggestions, v.webhookAnalysis, v.webhookData);
      && p.diagnostic
      && (TryBlock(outcome).Threw? ==> p.suggestions && !p.analysis)
      && (TryBlock(outcome).Completed? && IsAnalysisShape(TryBlock(outcome).data) ==> p.analysis && !p.suggestions)
  {
    MockSuggestionsShape();
    if TryBlock(outcome).Completed? && IsAnalysisShape(TryBlock(outcome).data) {
      AnalysisShapeShown(outcome.status, outcome.statusText, TryBlock(outcome).data, responseTime, stamp);
    }
  }
}
