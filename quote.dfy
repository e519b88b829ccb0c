/** The query of `getQuote` (jupitor-swaps/src/index.js:70-79): which
    parameters are appended to the aggregator's `/quote` URL, and in what
    order. The request itself is an oracle outcome in `SwapPipeline`. */
module QuoteClient {
  import opened Wrappers
  import opened Numerals

  const LiteApiBase := "https://lite-api.jup.ag/swap/v1"
  const QuoteEndpoint := LiteApiBase + "/quote"

  /** The argument record of `getQuote`. `slippageBps` and `maxAccounts` are
      `None` when undefined or NaN; the two flags carry their truthiness. */
  datatype QuoteParams = QuoteParams(
    inputMint: string,
    outputMint: string,
    amount: int,
    slippageBps: Option<int>,
    restrictIntermediateTokens: bool,
    onlyDirectRoutes: bool,
    maxAccounts: Option<int>)

  /** The query parameter names `getQuote` uses. */
  datatype ParamName =
    | InputMint | OutputMint | Amount | SlippageBps
    | RestrictIntermediateTokens | OnlyDirectRoutes | MaxAccounts

  /** How each name is spelled in the URL. */
  function Spelling(n: ParamName): string
  {
    match n
    case InputMint => "inputMint"
    case OutputMint => "outputMint"
    case Amount => "amount"
    case SlippageBps => "slippageBps"
    case RestrictIntermediateTokens => "restrictIntermediateTokens"
    case OnlyDirectRoutes => "onlyDirectRoutes"
    case MaxAccounts => "maxAccounts"
  }

  /** Distinct names are spelled differently in the URL. */
  lemma SpellingInjective(a: ParamName, b: ParamName)
    ensures Spelling(a) == Spelling(b) <==> a == b
  {
  }

  /** One `name=value` pair of a URL query. */
  type QueryParam = (ParamName, string)

  /** The `searchParams` of a `URL`: an ordered list of pairs that `append`
      extends in place. */
  class SearchParams {
    var entries: seq<QueryParam>

    constructor ()
      ensures entries == []
    {
      entries := [];
    }

    method Append(name: ParamName, value: string)
      modifies this
      ensures entries == old(entries) + [(name, value)]
    {
      entries := entries + [(name, value)];
    }
  }

  /** `params.slippageBps || 50`: NaN, undefined and 0 all fall back to 50. */
  function EffectiveSlippage(s: Option<int>): (bps: int)
    ensures bps != 0
    ensures s.Some? && s.value != 0 ==> bps == s.value
    ensures s.None? || s.value == 0 ==> bps == 50
  {
    if s.Some? && s.value != 0 then s.value else 50
  }

  /** `maxAccounts` is truthy: present, a number, and not 0. */
  predicate MaxAccountsGiven(m: Option<int>)
  {
    m.Some? && m.value != 0
  }

  /** The optional parameters, in the fixed order the source appends them,
      each only when its input is truthy. */
  function OptionalParams(p: QuoteParams): seq<QueryParam>
  {
    (if p.restrictIntermediateTokens then [(RestrictIntermediateTokens, "true")] else []) +
    (if p.onlyDirectRoutes then [(OnlyDirectRoutes, "true")] else []) +
    (if MaxAccountsGiven(p.maxAccounts) then [(MaxAccounts, IntToString(p.maxAccounts.value))] else [])
  }

  /** The four parameters `getQuote` always sends, in order. */
  function RequiredParams(p: QuoteParams): seq<QueryParam>
  {
    [(InputMint, p.inputMint), (OutputMint, p.outputMint),
     (Amount, IntToString(p.amount)), (SlippageBps, IntToString(EffectiveSlippage(p.slippageBps)))]
  }

  /** The query `getQuote` sends for `p`: the required parameters first,
      then the optional ones. */
  predicate IsQuoteQuery(q: seq<QueryParam>, p: QuoteParams)
  {
    q == RequiredParams(p) + OptionalParams(p)
  }

  /** One `if (flag) url.searchParams.append(name, value)` of lines 76-78. */
  method AppendIf(q: SearchParams, flag: bool, name: ParamName, value: string)
    modifies q
    ensures q.entries == old(q.entries) + if flag then [(name, value)] else []
  {
    if flag {
      q.Append(name, value);
    }
  }

  /** Lines 71-78: a fresh URL whose query is grown one `append` at a time. */
  method BuildQuoteQuery(p: QuoteParams) returns (query: seq<QueryParam>)
    ensures IsQuoteQuery(query, p)
  {
    var amountText := IntToString(p.amount);
    var slippageText := IntToString(EffectiveSlippage(p.slippageBps));
    var q := new SearchParams();
    q.Append(InputMint, p.inputMint);
    q.Append(OutputMint, p.outputMint);
    q.Append(Amount, amountText);
    q.Append(SlippageBps, slippageText);
    assert q.entries == RequiredParams(p);
    AppendIf(q, p.restrictIntermediateTokens, RestrictIntermediateTokens, "true");
    AppendIf(q, p.onlyDirectRoutes, OnlyDirectRoutes, "true");
    var maxAccountsText := if MaxAccountsGiven(p.maxAccounts) then IntToString(p.maxAccounts.value) else "";
    AppendIf(q, MaxAccountsGiven(p.maxAccounts), MaxAccounts, maxAccountsText);
    query := q.entries;
  }

  function Names(q: seq<QueryParam>): seq<ParamName>
  {
    seq(|q|, i requires 0 <= i < |q| => q[i].0)
  }

  /** The required parameters of a quote query come first, in order;
      `amount` reads back as the atomic amount and `slippageBps` as the
      effective slippage, which is never 0. */
  lemma QuoteQueryRequired(q: seq<QueryParam>, p: QuoteParams)
    requires IsQuoteQuery(q, p)
    ensures Names(q)[..4] == [InputMint, OutputMint, Amount, SlippageBps]
    ensures ParseIntegerLiteral(q[2].1) == Some(p.amount)
    ensures ParseIntegerLiteral(q[3].1) == Some(EffectiveSlippage(p.slippageBps))
    ensures q[3].1 != "0"
  {
    IntToStringRoundTrip(p.amount);
    IntToStringRoundTrip(EffectiveSlippage(p.slippageBps));
  }

  /** Each optional parameter is in a quote query exactly when its input is
      truthy, and nothing else follows the required four. */
  lemma QuoteQueryOptional(q: seq<QueryParam>, p: QuoteParams)
    requires IsQuoteQuery(q, p)
    ensures RestrictIntermediateTokens in Names(q) <==> p.restrictIntermediateTokens
    ensures OnlyDirectRoutes in Names(q) <==> p.onlyDirectRoutes
    ensures MaxAccounts in Names(q) <==> MaxAccountsGiven(p.maxAccounts)
    ensures |q| == 4 + (if p.restrictIntermediateTokens then 1 else 0)
                     + (if p.onlyDirectRoutes then 1 else 0)
                     + (if MaxAccountsGiven(p.maxAccounts) then 1 else 0)
  {
    var o := OptionalParams(p);
    assert q == q[..4] + o;
    NamesConcat(q[..4], o);
    assert Names(q[..4]) == [InputMint, OutputMint, Amount, SlippageBps];
    var a := if p.restrictIntermediateTokens then [(RestrictIntermediateTokens, "true")] else [];
    var b := if p.onlyDirectRoutes then [(OnlyDirectRoutes, "true")] else [];
    var c := if MaxAccountsGiven(p.maxAccounts) then [(MaxAccounts, IntToString(p.maxAccounts.value))] else [];
    assert o == a + b + c;
    NamesConcat(a + b, c);
    NamesConcat(a, b);
    assert Names(a) == if p.restrictIntermediateTokens then [RestrictIntermediateTokens] else [];
    assert Names(b) == if p.onlyDirectRoutes then [OnlyDirectRoutes] else [];
    assert Names(c) == if MaxAccountsGiven(p.maxAccounts) then [MaxAccounts] else [];
  }

  lemma NamesConcat(a: seq<QueryParam>, b: seq<QueryParam>)
    ensures Names(a + b) == Names(a) + Names(b)
  {
  }

  /** The place of each name in the order `getQuote` appends them. */
  function Position(n: ParamName): nat
  {
    match n
    case InputMint => 0
    case OutputMint => 1
    case Amount => 2
    case SlippageBps => 3
    case RestrictIntermediateTokens => 4
    case OnlyDirectRoutes => 5
    case MaxAccounts => 6
  }

  /** The names of a query follow that order strictly. */
  predicate InAppendOrder(q: seq<QueryParam>)
  {
    forall i, j :: 0 <= i < j < |q| ==> Position(q[i].0) < Position(q[j].0)
  }

  lemma AppendOrderConcat(a: seq<QueryParam>, b: seq<QueryParam>)
    requires InAppendOrder(a) && InAppendOrder(b)
    requires a != [] && b != [] ==> Position(a[|a| - 1].0) < Position(b[0].0)
    ensures InAppendOrder(a + b)
  {
    var t := a + b;
    forall i, j | 0 <= i < j < |t| ensures Position(t[i].0) < Position(t[j].0) {
      if j < |a| {
        assert t[i] == a[i] && t[j] == a[j];
      } else if i < |a| {
        assert t[i] == a[i] && t[j] == b[j - |a|];
        assert i < |a| - 1 ==> Position(a[i].0) < Position(a[|a| - 1].0);
        assert j - |a| > 0 ==> Position(b[0].0) < Position(b[j - |a|].0);
      } else {
        assert t[i] == b[i - |a|] && t[j] == b[j - |a|];
      }
    }
  }

  /** The optional parameters follow the append order, after the required
      ones. */
  lemma OptionalInAppendOrder(p: QuoteParams)
    ensures InAppendOrder(OptionalParams(p))
    ensures forall k :: 0 <= k < |OptionalParams(p)| ==> Position(OptionalParams(p)[k].0) >= 4
  {
    var a := if p.restrictIntermediateTokens then [(RestrictIntermediateTokens, "true")] else [];
    var b := if p.onlyDirectRoutes then [(OnlyDirectRoutes, "true")] else [];
    var c := if MaxAccountsGiven(p.maxAccounts) then [(MaxAccounts, IntToString(p.maxAccounts.value))] else [];
    var o := a + b + c;
    assert OptionalParams(p) == o;
    forall k | 0 <= k < |o|
      ensures Position(o[k].0) == if k < |a| then 4 else if k < |a| + |b| then 5 else 6
    {
      if k < |a| {
        assert o[k] == a[k];
      } else if k < |a| + |b| {
        assert o[k] == b[k - |a|];
      } else {
        assert o[k] == c[k - |a| - |b|];
      }
    }
  }

  /** A quote query lists its names in the fixed append order, so no
      parameter is sent twice. */
  lemma QuoteQueryOrdered(q: seq<QueryParam>, p: QuoteParams)
    requires IsQuoteQuery(q, p)
    ensures InAppendOrder(q)
    ensures forall i, j :: 0 <= i < j < |q| ==> q[i].0 != q[j].0
  {
    OptionalInAppendOrder(p);
    AppendOrderConcat(RequiredParams(p), OptionalParams(p));
    forall i, j | 0 <= i < j < |q| ensures q[i].0 != q[j].0 {
      assert Position(q[i].0) < Position(q[j].0);
    }
  }

  /** No name is spelled twice in the URL of a quote query. */
  lemma QuoteQuerySpelledOnce(q: seq<QueryParam>, p: QuoteParams)
    requires IsQuoteQuery(q, p)
    ensures forall i, j :: 0 <= i < j < |q| ==> Spelling(q[i].0) != Spelling(q[j].0)
  {
    QuoteQueryOrdered(q, p);
    forall i, j | 0 <= i < j < |q| ensures Spelling(q[i].0) != Spelling(q[j].0) {
      SpellingInjective(q[i].0, q[j].0);
    }
  }
}
