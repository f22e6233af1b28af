/** The flat suggestion list (src/components/TradeSuggestions.tsx): the
    styling chosen from a suggestion's type and confidence, and the one card
    per suggestion the list renders. Markup is replaced by enumerations. */
module TradeSuggestions {
  import opened Options
  import opened Json

  /** A trade suggestion as the webhook sends it. `kind` is the `type`
      field; the component is declared for "buy", "sell" and "hold" but
      switches on any string. */
  datatype Suggestion = Suggestion(
    kind: string,
    confidence: int,
    price: string,
    target: string,
    stopLoss: string,
    reason: string,
    timeframe: string)

  /** The gradient class of the icon bubble and the order button. */
  datatype TypeColor = GradientSuccess | GradientWarning | GradientPrimary

  /** The icon inside the bubble. */
  datatype TypeIcon = TrendingUp | TrendingDown | Target

  /** The shadow class of the bubble and the button's hover shadow. */
  datatype Shadow = ShadowSuccess | ShadowWarning | ShadowGlow

  /** The border and text style of the confidence badge. */
  datatype ConfidenceTier = TierSuccess | TierWarning | TierDestructive

  /** What one card shows besides the suggestion's own text fields. */
  datatype Card = Card(color: TypeColor, icon: TypeIcon, shadow: Shadow, tier: ConfidenceTier, suggestion: Suggestion)

  /** `getTypeColor`. */
  function TypeColorOf(kind: string): (c: TypeColor)
    ensures c == GradientSuccess <==> kind == "buy"
    ensures c == GradientWarning <==> kind == "sell"
  {
    if kind == "buy" then GradientSuccess
    else if kind == "sell" then GradientWarning
    else if kind == "hold" then GradientPrimary
    else GradientPrimary
  }

  /** `getTypeIcon`. */
  function TypeIconOf(kind: string): (i: TypeIcon)
    ensures i == TrendingUp <==> kind == "buy"
    ensures i == TrendingDown <==> kind == "sell"
  {
    if kind == "buy" then TrendingUp
    else if kind == "sell" then TrendingDown
    else if kind == "hold" then Target
    else Target
  }

  /** The shadow suffix chosen by the nested conditional on `type`. */
  function ShadowOf(kind: string): (s: Shadow)
    ensures s == ShadowSuccess <==> kind == "buy"
    ensures s == ShadowWarning <==> kind == "sell"
  {
    if kind == "buy" then ShadowSuccess else if kind == "sell" then ShadowWarning else ShadowGlow
  }

  /** The confidence badge: 80 and above, 60 to 79, below 60. */
  function TierOf(confidence: int): (t: ConfidenceTier)
    ensures t == TierSuccess <==> confidence >= 80
    ensures t == TierWarning <==> 60 <= confidence < 80
    ensures t == TierDestructive <==> confidence < 60
  {
    if confidence >= 80 then TierSuccess
    else if confidence >= 60 then TierWarning
    else TierDestructive
  }

  /** A rank that orders the tiers from worst to best. */
  function TierRank(t: ConfidenceTier): nat {
    match t
    case TierDestructive => 0
    case TierWarning => 1
    case TierSuccess => 2
  }

  function CardFor(s: Suggestion): Card {
    Card(TypeColorOf(s.kind), TypeIconOf(s.kind), ShadowOf(s.kind), TierOf(s.confidence), s)
  }

  /** `suggestions.map(...)`: one card per suggestion, in list order. */
  function Cards(suggestions: seq<Suggestion>): (cards: seq<Card>)
    ensures |cards| == |suggestions|
    ensures forall i :: 0 <= i < |cards| ==> cards[i] == CardFor(suggestions[i])
  {
    if suggestions == [] then []
    else
      var rest := Cards(suggestions[1..]);
      assert forall i :: 1 <= i < |suggestions| ==> suggestions[i] == suggestions[1..][i - 1];
      [CardFor(suggestions[0])] + rest
  }

  /** The JSON object the webhook (or the fallback) uses for a suggestion. */
  function ToJson(s: Suggestion): (v: Value)
    ensures v.Obj? && |v.fields| == 7
  {
    var f := map[
      "type" := Str(s.kind), "confidence" := Num(s.confidence), "price" := Str(s.price),
      "target" := Str(s.target), "stopLoss" := Str(s.stopLoss), "reason" := Str(s.reason),
      "timeframe" := Str(s.timeframe)];
    assert f.Keys == {"type", "confidence", "price", "target", "stopLoss", "reason", "timeframe"};
    assert |f.Keys| == 7 by {
      assert "type" != "confidence" && "price" != "target";
    }
    Obj(f)
  }

  /** Reading a suggestion's fields back from JSON, as the component does
      with `suggestion.type`, `suggestion.confidence` and so on; a value
      lacking a field or holding one of the wrong type is not a
      suggestion. */
  function FromJson(v: Value): Option<Suggestion> {
    if v.Obj? then
      match (Prop(v, "type"), Prop(v, "confidence"), Prop(v, "price"), Prop(v, "target"),
             Prop(v, "stopLoss"), Prop(v, "reason"), Prop(v, "timeframe"))
      case (Some(Str(k)), Some(Num(c)), Some(Str(p)), Some(Str(t)), Some(Str(sl)), Some(Str(r)), Some(Str(tf))) =>
        Some(Suggestion(k, c, p, t, sl, r, tf))
      case _ => None
    else None
  }

  // ---------------------------------------------------------------------
  // Lemmas

  /** Writing a suggestion as JSON and reading it back gives it again. */
  lemma JsonRoundTrip(s: Suggestion)
    ensures FromJson(ToJson(s)) == Some(s)
  {
  }

  /** The icon partitions the types as the colour does, except that "hold"
      and unknown types share the target icon. */
  lemma IconFollowsColor(kind: string)
    ensures TypeColorOf(kind) == GradientSuccess <==> TypeIconOf(kind) == TrendingUp
    ensures TypeColorOf(kind) == GradientWarning <==> TypeIconOf(kind) == TrendingDown
    ensures TypeColorOf(kind) == GradientPrimary <==> TypeIconOf(kind) == Target
  {
  }

  /** The shadow agrees with the colour on every type. */
  lemma ShadowFollowsColor(kind: string)
    ensures TypeColorOf(kind) == GradientSuccess <==> ShadowOf(kind) == ShadowSuccess
    ensures TypeColorOf(kind) == GradientWarning <==> ShadowOf(kind) == ShadowWarning
    ensures TypeColorOf(kind) == GradientPrimary <==> ShadowOf(kind) == ShadowGlow
  {
  }

  /** More confidence never gives a worse badge. */
  lemma TierMonotone(lo: int, hi: int)
    requires lo <= hi
    ensures TierRank(TierOf(lo)) <= TierRank(TierOf(hi))
  {
  }

  /** The cards of a concatenated list are the cards of its parts. */
  lemma {:induction false} CardsAppend(a: seq<Suggestion>, b: seq<Suggestion>)
    ensures Cards(a + b) == Cards(a) + Cards(b)
  {
    var l, r := Cards(a + b), Cards(a) + Cards(b);
    assert |l| == |r|;
    forall i | 0 <= i < |l| ensures l[i] == r[i] {
      if i < |a| {
        assert (a + b)[i] == a[i];
      } else {
        assert (a + b)[i] == b[i - |a|];
      }
    }
  }
}
