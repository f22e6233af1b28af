/** The leveraged-analysis panel (src/components/WebhookTradingAnalysis.tsx):
    the guard that decides whether it renders, the three action classifiers
    (gradient, badge colour, icon), the `<b>` stripping and the 150-character
    rationale excerpt. Markup is replaced by the enumerations below. */
module TradingAnalysis {
  import opened Options
  import opened Json
  import opened JsString

  /** The background gradient class chosen for an action. */
  datatype Gradient = GradientSuccess | GradientWarning | GradientPrimary

  /** The badge variant chosen for an action. */
  datatype BadgeVariant = Default | Destructive | Secondary

  /** The icon chosen for an action. */
  datatype ActionIcon = TrendingUp | TrendingDown | Target

  /** The panel's guard: it renders only for a non-empty list whose first
      element has a truthy `output`, and then shows that `output` alone. */
  function Subject(data: seq<Value>): (r: Option<Value>)
    ensures r.Some? <==> |data| > 0 && TruthyOpt(Chain(Some(data[0]), "output"))
    ensures r.Some? ==> Prop(data[0], "output") == Some(r.value) && Truthy(r.value)
  {
    if |data| == 0 then None
    else
      var output := Chain(Some(data[0]), "output");
      if TruthyOpt(output) then output else None
  }

  /** The action mentions buying or going long (after `toLowerCase`). */
  predicate MentionsBullish(action: string) {
    var lower := ToLower(action);
    Includes(lower, "buy") || Includes(lower, "long")
  }

  /** The action mentions selling or going short (after `toLowerCase`). */
  predicate MentionsBearish(action: string) {
    var lower := ToLower(action);
    Includes(lower, "sell") || Includes(lower, "short")
  }

  /** `getActionGradient`. */
  function ActionGradient(action: string): (g: Gradient)
    ensures g == GradientSuccess <==> MentionsBullish(action)
    ensures g == GradientWarning <==> !MentionsBullish(action) && MentionsBearish(action)
  {
    var lower := ToLower(action);
    if Includes(lower, "buy") || Includes(lower, "long") then GradientSuccess
    else if Includes(lower, "sell") || Includes(lower, "short") then GradientWarning
    else GradientPrimary
  }

  /** `getActionColor`. */
  function ActionColor(action: string): (v: BadgeVariant)
    ensures v == Default <==> MentionsBullish(action)
    ensures v == Destructive <==> !MentionsBullish(action) && MentionsBearish(action)
  {
    var lower := ToLower(action);
    if Includes(lower, "buy") || Includes(lower, "long") then Default
    else if Includes(lower, "sell") || Includes(lower, "short") then Destructive
    else Secondary
  }

  /** `getActionIcon`. */
  function ActionIconOf(action: string): (i: ActionIcon)
    ensures i == TrendingUp <==> MentionsBullish(action)
    ensures i == TrendingDown <==> !MentionsBullish(action) && MentionsBearish(action)
  {
    var lower := ToLower(action);
    if Includes(lower, "buy") || Includes(lower, "long") then TrendingUp
    else if Includes(lower, "sell") || Includes(lower, "short") then TrendingDown
    else Target
  }

  /** `cleanHtmlContent`: every `<b>` is removed in one left-to-right pass,
      then every `</b>` in a second pass. */
  function CleanHtml(content: string): (r: string)
    ensures |r| <= |content|
    ensures !Includes(content, "<b>") && !Includes(content, "</b>") ==> r == content
  {
    var t := RemoveAll(content, "<b>");
    RemoveAllChangesIffIncludes(content, "<b>");
    RemoveAllChangesIffIncludes(t, "</b>");
    RemoveAll(t, "</b>")
  }

  /** `cleanHtmlContent(text).substring(0, 150)`, the rationale excerpt shown
      under "Price Action" (the markup then appends "..."). */
  function Excerpt(text: string): (r: string)
    ensures r <= CleanHtml(text)
    ensures |r| == if |CleanHtml(text)| < 150 then |CleanHtml(text)| else 150
    ensures |CleanHtml(text)| <= 150 ==> r == CleanHtml(text)
  {
    Prefix(CleanHtml(text), 150)
  }

  // ---------------------------------------------------------------------
  // Lemmas

  /** Only the first element matters: appending further elements changes
      neither whether the panel renders nor what it shows. */
  lemma SubjectIgnoresTail(data: seq<Value>, more: seq<Value>)
    requires |data| > 0
    ensures Subject(data + more) == Subject(data)
  {
    assert (data + more)[0] == data[0];
  }

  /** A buy/long mention wins over a sell/short mention in all three
      classifiers. */
  lemma BullishTakesPrecedence(action: string)
    requires MentionsBullish(action) && MentionsBearish(action)
    ensures ActionGradient(action) == GradientSuccess
    ensures ActionColor(action) == Default
    ensures ActionIconOf(action) == TrendingUp
  {
  }

  /** The three classifiers always take the same branch. */
  lemma ClassifiersAgree(action: string)
    ensures ActionGradient(action) == GradientSuccess <==> ActionColor(action) == Default
    ensures ActionColor(action) == Default <==> ActionIconOf(action) == TrendingUp
    ensures ActionGradient(action) == GradientWarning <==> ActionColor(action) == Destructive
    ensures ActionColor(action) == Destructive <==> ActionIconOf(action) == TrendingDown
    ensures ActionGradient(action) == GradientPrimary <==> ActionIconOf(action) == Target
  {
  }

  /** The classification ignores letter case. */
  lemma ClassificationIgnoresCase(action: string)
    ensures ActionGradient(ToUpper(action)) == ActionGradient(action)
    ensures ActionGradient(ToLower(action)) == ActionGradient(action)
    ensures ActionColor(ToUpper(action)) == ActionColor(action)
    ensures ActionIconOf(ToUpper(action)) == ActionIconOf(action)
  {
    LowerOfUpper(action);
    ToLowerIdempotent(action);
  }

  /** The classification is decided by the positions of the keywords in the
      lower-cased action, for instance "STRONG BUY" is bullish and
      "Short" is bearish. */
  lemma KeywordExamples()
    ensures ActionGradient("STRONG BUY") == GradientSuccess
    ensures ActionGradient("Short") == GradientWarning
    ensures ActionGradient("Wait") == GradientPrimary
  {
    StrongBuyIsSuccess();
    ShortIsWarning();
    WaitIsPrimary();
  }

  /** `"STRONG BUY"` contains `buy`. */
  lemma StrongBuyIsSuccess()
    ensures ActionGradient("STRONG BUY") == GradientSuccess
  {
    assert ToLower("STRONG BUY") == "strong buy";
    assert OccursAt("strong buy", "buy", 7);
  }

  /** `"Short"` contains `short` but neither `buy` nor `long`. */
  lemma ShortIsWarning()
    ensures ActionGradient("Short") == GradientWarning
  {
    assert ToLower("Short") == "short";
    assert OccursAt("short", "short", 0);
    NoOccurrenceWithoutFirstChar("short", "buy");
    NoOccurrenceWithoutFirstChar("short", "long");
  }

  /** `"Wait"` contains none of the four keywords. */
  lemma WaitIsPrimary()
    ensures ActionGradient("Wait") == GradientPrimary
  {
    var w := ToLower("Wait");
    assert w == "wait";
    NoOccurrenceWithoutFirstChar(w, "buy");
    NoOccurrenceWithoutFirstChar(w, "long");
    NoOccurrenceWithoutFirstChar(w, "sell");
    NoOccurrenceWithoutFirstChar(w, "short");
  }

  /** Text without `<` is shown as it is. */
  lemma CleanHtmlKeepsPlainText(content: string)
    requires forall i :: 0 <= i < |content| ==> content[i] != '<'
    ensures CleanHtml(content) == content
  {
    RemoveAllUntouched(content, "<b>");
    RemoveAllUntouched(content, "</b>");
  }

  /** Bold markup around plain text is removed completely. */
  lemma CleanHtmlUnwrapsBold(text: string)
    requires forall i :: 0 <= i < |text| ==> text[i] != '<'
    ensures CleanHtml("<b>" + text + "</b>") == text
  {
    OpeningTagRemoved(text);
    ClosingTagRemoved(text);
  }

  /** The first pass removes the opening tag and keeps the closing one. */
  lemma OpeningTagRemoved(text: string)
    requires forall i :: 0 <= i < |text| ==> text[i] != '<'
    ensures RemoveAll("<b>" + text + "</b>", "<b>") == text + "</b>"
  {
    assert "<b>" + text + "</b>" == "<b>" + (text + "</b>");
    RemoveAllLeading("<b>", text + "</b>");
    RemoveAllAppend(text, "</b>", "<b>");
    ClosingTagKept();
  }

  /** `</b>` does not contain `<b>`. */
  lemma ClosingTagKept()
    ensures RemoveAll("</b>", "<b>") == "</b>"
  {
    assert "</b>"[..3] != "<b>" by { assert "</b>"[..3][1] != "<b>"[1]; }
    assert "</b>"[1..] == "/b>";
    RemoveAllUntouched("/b>", "<b>");
  }

  /** The second pass removes the closing tag. */
  lemma ClosingTagRemoved(text: string)
    requires forall i :: 0 <= i < |text| ==> text[i] != '<'
    ensures RemoveAll(text + "</b>", "</b>") == text
  {
    RemoveAllAppend(text, "</b>", "</b>");
    assert "</b>"[4..] == [];
    assert text + [] == text;
  }

  /** One pass is not enough to remove nested markup: `<<b>b>` is cleaned to
      `<b>`. */
  lemma CleanHtmlLeavesNestedTag()
    ensures CleanHtml("<<b>b>") == "<b>"
  {
    var s := "<<b>b>";
    assert s[..3][1] != "<b>"[1];
    assert s[1..] == "<b>b>";
    assert s[1..][..3] == "<b>";
    assert s[1..][3..] == "b>";
    RemoveAllUntouched("b>", "<b>");
    assert RemoveAll(s, "<b>") == "<b>";
    RemoveAllUntouched("b>", "</b>");
    assert "<b>"[1..] == "b>";
  }
}
