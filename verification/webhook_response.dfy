/** The diagnostic panel (src/components/WebhookResponse.tsx) and the
    diagnostic record the page keeps about the last webhook call. Markup is
    replaced by the `Panel` record of what the panel shows. */
module WebhookResponse {
  import opened Options
  import opened Json
  import opened JsString

  datatype Status = Success | Error | Pending

  /** The diagnostic record (`webhookData`). */
  datatype Diagnostic = Diagnostic(
    status: Status,
    responseTime: Option<int>,
    timestamp: Option<string>,
    rawData: Option<Value>,
    error: Option<string>)

  /** The badge colours of `getStatusColor`. */
  datatype StatusColor = Green | Red | Yellow | Muted

  /** The icons of `getStatusIcon`. */
  datatype StatusIcon = CheckCircle | XCircle | Clock | Server

  /** What the panel shows. `errorDetails` and `rawData` are the two optional
      sections; `None` means the section is not rendered. */
  datatype Panel = Panel(
    color: StatusColor,
    icon: StatusIcon,
    statusLabel: string,
    responseTime: string,
    dataPoints: Value,
    errorDetails: Option<string>,
    rawData: Option<Value>)

  /** The status as the string the component switches on. */
  function StatusName(s: Status): string {
    match s
    case Success => "success"
    case Error => "error"
    case Pending => "pending"
  }

  /** `getStatusColor`, over any status string. */
  function StatusColorOf(status: string): (c: StatusColor)
    ensures c == Muted <==> status !in {"success", "error", "pending"}
  {
    if status == "success" then Green
    else if status == "error" then Red
    else if status == "pending" then Yellow
    else Muted
  }

  /** `getStatusIcon`, over any status string. */
  function StatusIconOf(status: string): (i: StatusIcon)
    ensures i == Server <==> status !in {"success", "error", "pending"}
  {
    if status == "success" then CheckCircle
    else if status == "error" then XCircle
    else if status == "pending" then Clock
    else Server
  }

  /** The "Response Time" text: `"<n>ms"` when the time is present and not
      zero, `"N/A"` otherwise. */
  function ResponseTimeText(responseTime: Option<int>): (r: string)
    ensures r == "N/A" <==> responseTime.None? || responseTime.value == 0
    ensures r != "N/A" ==> r == IntToString(responseTime.value) + "ms"
  {
    if responseTime.Some? && responseTime.value != 0 then
      var r := IntToString(responseTime.value) + "ms";
      assert r[|r| - 1] == 's';
      r
    else "N/A"
  }

  /** The "Data Points" figure, `rawData?.suggestions?.length || 0`: the
      length when it is truthy, and 0 otherwise. */
  function DataPoints(rawData: Option<Value>): (r: Value)
    ensures r == Num(0) || Truthy(r)
    ensures TruthyOpt(Chain(Chain(rawData, "suggestions"), "length")) ==> Some(r) == Chain(Chain(rawData, "suggestions"), "length")
    ensures !TruthyOpt(Chain(Chain(rawData, "suggestions"), "length")) ==> r == Num(0)
  {
    var n := Chain(Chain(rawData, "suggestions"), "length");
    if TruthyOpt(n) then n.value else Num(0)
  }

  /** The error section is shown when `error` is a non-empty string. */
  predicate ShowsError(d: Diagnostic) {
    d.error.Some? && d.error.value != ""
  }

  /** The raw-data section is shown when `rawData` is truthy. */
  predicate ShowsRawData(d: Diagnostic) {
    TruthyOpt(d.rawData)
  }

  /** The component: nothing for a missing record, otherwise the panel. */
  function Render(webhookData: Option<Diagnostic>): (r: Option<Panel>)
    ensures r.None? <==> webhookData.None?
    ensures r.Some? ==> r.value.errorDetails.Some? == ShowsError(webhookData.value)
    ensures r.Some? ==> r.value.rawData.Some? == ShowsRawData(webhookData.value)
    ensures r.Some? ==> r.value.statusLabel == ToUpper(StatusName(webhookData.value.status))
    ensures r.Some? ==> r.value.color == StatusColorOf(StatusName(webhookData.value.status))
    ensures r.Some? ==> r.value.icon == StatusIconOf(StatusName(webhookData.value.status))
    ensures r.Some? ==> r.value.responseTime == ResponseTimeText(webhookData.value.responseTime)
    ensures r.Some? ==> r.value.dataPoints == DataPoints(webhookData.value.rawData)
    ensures r.Some? && ShowsError(webhookData.value) ==> r.value.errorDetails == webhookData.value.error
    ensures r.Some? && ShowsRawData(webhookData.value) ==> r.value.rawData == webhookData.value.rawData
  {
    match webhookData
    case None => None
    case Some(d) =>
      var name := StatusName(d.status);
      Some(Panel(
        StatusColorOf(name),
        StatusIconOf(name),
        ToUpper(name),
        ResponseTimeText(d.responseTime),
        DataPoints(d.rawData),
        if ShowsError(d) then d.error else None,
        if ShowsRawData(d) then d.rawData else None))
  }

  // ---------------------------------------------------------------------
  // Lemmas

  /** The three statuses the page produces get three distinct colours and
      icons, none of them the default one. */
  lemma StatusStylesDistinct(s: Status, t: Status)
    ensures StatusColorOf(StatusName(s)) != Muted && StatusIconOf(StatusName(s)) != Server
    ensures s != t ==> StatusColorOf(StatusName(s)) != StatusColorOf(StatusName(t))
    ensures s != t ==> StatusIconOf(StatusName(s)) != StatusIconOf(StatusName(t))
  {
  }

  /** A zero response time is shown as "N/A", and a positive one can be read
      back from the text. */
  lemma {:induction false} ResponseTimeReadsBack(n: int)
    ensures ResponseTimeText(Some(0)) == "N/A"
    ensures n > 0 ==> var r := ResponseTimeText(Some(n));
      AllDigits(r[..|r| - 2]) && DigitsValue(r[..|r| - 2]) == n
  {
    if n > 0 {
      var r := ResponseTimeText(Some(n));
      assert r[..|r| - 2] == Decimal(n);
      DecimalRoundTrip(n);
    }
  }

  /** Data points count a `suggestions` array, whatever its length. */
  lemma DataPointsOfSuggestionList(fields: map<string, Value>, items: seq<Value>)
    requires "suggestions" in fields && fields["suggestions"] == Arr(items)
    ensures DataPoints(Some(Obj(fields))) == Num(|items|)
  {
  }

  /** A bare array (the analysis shape) has no `suggestions`, so it shows 0
      data points; so does a missing record body. */
  lemma DataPointsWithoutSuggestions(items: seq<Value>)
    ensures DataPoints(Some(Arr(items))) == Num(0)
    ensures DataPoints(None) == Num(0)
    ensures DataPoints(Some(Null)) == Num(0)
  {
  }
}
