/** The trading-pair input form (src/components/CoinInput.tsx): suffix
    validation, the normalisation applied before a search, the submit gate,
    and the quick-pick presets. The `onSearch` callback is modelled as the
    value the handler returns: `Some(pair)` when it calls
    `onSearch(pair)`, `None` when it makes no call. */
module CoinInput {
  import opened Options
  import opened JsString

  /** The quote currencies a pair may end with. */
  const ValidQuotes: seq<string> := ["USDT", "BUSD", "USDC", "BTC", "ETH"]

  /** The quick-pick buttons, in display order. */
  const Presets: seq<string> := ["BTCUSDT", "ETHUSDT", "ADAUSDT", "SOLUSDT", "DOTUSDT"]

  /** `quotes.some(quote => query.endsWith(quote))`, scanned in list order. */
  function EndsWithAny(query: string, quotes: seq<string>): (r: bool)
    ensures r <==> exists i :: 0 <= i < |quotes| && EndsWith(query, quotes[i])
  {
    if quotes == [] then false
    else if EndsWith(query, quotes[0]) then true
    else
      var r := EndsWithAny(query, quotes[1..]);
      assert forall i :: 1 <= i < |quotes| ==> quotes[i] == quotes[1..][i - 1];
      r
  }

  /** `isValidTradingPair`: the query ends with one of the quote currencies.
      The comparison is case-sensitive. A valid pair is at least as long as
      the shortest quote. */
  function IsValidTradingPair(query: string): (r: bool)
    ensures r <==> exists q :: q in ValidQuotes && EndsWith(query, q)
    ensures r ==> |query| >= 3
  {
    EndsWithAny(query, ValidQuotes)
  }

  /** `coinQuery.trim().toUpperCase()`. */
  function Normalize(query: string): (r: string)
    ensures |r| <= |query|
    ensures IsTrimmed(r) && IsUpperCase(r)
  {
    var t := Trim(query);
    var r := ToUpper(t);
    UpperCharWhitespace(if t == [] then ' ' else t[0]);
    UpperCharWhitespace(if t == [] then ' ' else t[|t| - 1]);
    r
  }

  /** The condition under which `handleSubmit` calls `onSearch`: the
      normalised query is non-empty and a valid trading pair. The emptiness
      test is subsumed: validity alone decides. */
  function Submits(query: string): (r: bool)
    ensures r <==> IsValidTradingPair(Normalize(query))
  {
    var q := Normalize(query);
    q != "" && IsValidTradingPair(q)
  }

  /** The `disabled` expression of the submit button: the button is enabled
      exactly when nothing is loading and `handleSubmit` would start a
      search. */
  function SubmitDisabled(isLoading: bool, coinQuery: string): (r: bool)
    ensures r <==> isLoading || !Submits(coinQuery)
  {
    isLoading || Trim(coinQuery) == "" || !IsValidTradingPair(ToUpper(Trim(coinQuery)))
  }

  class Form {
    /** The text of the input field (`coinQuery`). */
    var coinQuery: string

    constructor ()
      ensures coinQuery == ""
    {
      coinQuery := "";
    }

    /** The input's `onChange`: the field takes the typed value verbatim. */
    method Change(value: string)
      modifies this
      ensures coinQuery == value
    {
      coinQuery := value;
    }

    /** `handleSubmit`: at most one search, only for a normalised valid pair,
        and the field itself is left as typed. */
    method HandleSubmit() returns (searched: Option<string>)
      ensures searched.Some? <==> Submits(coinQuery)
      ensures searched.Some? ==> searched.value == Normalize(coinQuery)
      ensures searched.Some? ==> IsValidTradingPair(searched.value) && IsTrimmed(searched.value) && IsUpperCase(searched.value)
    {
      var query := Normalize(coinQuery);
      if query != "" && IsValidTradingPair(query) {
        searched := Some(query);
      } else {
        searched := None;
      }
    }

    /** `handleSuggestionClick`: the field shows the preset and a search for
        it starts, whatever the loading state or the preset's validity. */
    method HandleSuggestionClick(suggestion: string) returns (searched: string)
      modifies this
      ensures coinQuery == suggestion
      ensures searched == suggestion
    {
      coinQuery := suggestion;
      searched := suggestion;
    }
  }

  // ---------------------------------------------------------------------
  // Lemmas

  /** Normalising twice is normalising once: a submitted pair is a fixed
      point of the normalisation. */
  lemma NormalizeIdempotent(query: string)
    ensures Normalize(Normalize(query)) == Normalize(query)
  {
    var n := Normalize(query);
    TrimOfTrimmed(n);
    ToUpperIdempotent(Trim(query));
  }

  /** Upper- or lower-casing the typed text first changes neither the
      normalised query nor whether the form submits. */
  lemma NormalizeCaseInsensitive(query: string)
    ensures Normalize(ToUpper(query)) == Normalize(query)
    ensures Normalize(ToLower(query)) == Normalize(query)
    ensures Submits(ToUpper(query)) == Submits(query)
    ensures Submits(ToLower(query)) == Submits(query)
  {
    TrimUpper(query);
    ToUpperIdempotent(Trim(query));
    TrimUpper(ToLower(query));
    UpperOfLower(query);
    UpperOfLower(Trim(query));
    TrimLowerUpper(query);
  }

  /** Helper: trimming the lower-cased text and then upper-casing it is the
      same as trimming and upper-casing the original. */
  lemma TrimLowerUpper(query: string)
    ensures ToUpper(Trim(ToLower(query))) == ToUpper(Trim(query))
  {
    TrimUpper(ToLower(query));
    UpperOfLower(query);
    TrimUpper(query);
  }

  /** Every quick-pick preset is a valid pair, already normalised, so typing
      it and submitting searches for the same pair the button does. */
  lemma PresetsAreValid()
    ensures forall p :: p in Presets ==> IsValidTradingPair(p) && Submits(p) && Normalize(p) == p
  {
    forall p | p in Presets
      ensures IsValidTradingPair(p) && Submits(p) && Normalize(p) == p
    {
      assert EndsWith(p, "USDT");
      assert IsTrimmed(p) by {
        assert p[0] != ' ' && p[|p| - 1] == 'T';
      }
      TrimOfTrimmed(p);
      assert ToUpper(p) == p;
    }
  }

  /** The validity predicate alone is case-sensitive, but the form submits a
      lower-case pair after upper-casing it. */
  lemma LowerCasePairSubmitsUpperCased()
    ensures !IsValidTradingPair("btcusdt")
    ensures Submits("btcusdt") && Normalize("btcusdt") == "BTCUSDT"
  {
    LowerCasePairInvalid();
    LowerCasePairTrimmed();
    LowerCasePairUpperCased();
    assert EndsWith("BTCUSDT", "USDT");
  }

  /** Helper: "btcusdt" ends with none of the quotes as written. */
  lemma LowerCasePairInvalid()
    ensures !IsValidTradingPair("btcusdt")
  {
    var q := "btcusdt";
    assert !EndsWith(q, "USDT") && !EndsWith(q, "BUSD") && !EndsWith(q, "USDC");
    assert !EndsWith(q, "BTC") && !EndsWith(q, "ETH");
  }

  /** Helper: "btcusdt" has no surrounding whitespace. */
  lemma LowerCasePairTrimmed()
    ensures Trim("btcusdt") == "btcusdt"
  {
    var q := "btcusdt";
    assert q[0] == 'b' && q[|q| - 1] == 't';
    TrimOfTrimmed(q);
  }

  /** Helper: upper-casing "btcusdt". */
  lemma LowerCasePairUpperCased()
    ensures ToUpper("btcusdt") == "BTCUSDT"
  {
  }

  /** Only the suffix matters: a pair quoted in BTC is valid and one in an
      unknown quote currency is not. */
  lemma SuffixDecidesValidity()
    ensures IsValidTradingPair("ETHBTC")
    ensures !IsValidTradingPair("XBTFOO")
  {
    assert EndsWith("ETHBTC", "BTC");
    var x := "XBTFOO";
    assert !EndsWith(x, "USDT") && !EndsWith(x, "BUSD") && !EndsWith(x, "USDC");
    assert !EndsWith(x, "BTC") && !EndsWith(x, "ETH");
  }

  /** A field holding only whitespace never submits. */
  lemma BlankNeverSubmits(query: string)
    requires forall i :: 0 <= i < |query| ==> IsWhitespace(query[i])
    ensures !Submits(query)
  {
    assert Trim(query) == [];
  }
}
