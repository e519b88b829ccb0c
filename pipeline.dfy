/** `main` (jupitor-swaps/src/index.js:137-319): configuration checks, the
    quote and build requests, the build-response dispatch, the optional
    signing stage and the two-tier simulation. Every network or library
    call is an outcome taken from an `Oracle`; the run records the calls it
    makes, in order, as a trace. */
module SwapPipeline {
  import opened Wrappers
  import opened Numerals
  import opened AmountConverter
  import opened QuoteClient
  import opened RouteSelector
  import opened TransactionBuilder
  import opened KeyMaterial
  import opened SimulationLogs

  /** `clusterApiUrl("mainnet-beta")`. */
  const DefaultRpcUrl := "https://api.mainnet-beta.solana.com"

  /** The environment, already read. `privateKey` and `publicKey` are
      trimmed ("" when unset); the two numbers are `parseInt` results
      (`None` for NaN) of `INPUT_DECIMALS || "9"` and `SLIPPAGE_BPS || "50"`. */
  datatype Config = Config(
    privateKey: string,
    publicKey: string,
    rpcUrl: Option<string>,
    inputMint: Option<string>,
    outputMint: Option<string>,
    amountUi: Option<string>,
    inputDecimals: Option<int>,
    slippageBps: Option<int>,
    restrictIntermediate: Option<string>)

  /** A truthy environment string: set and not "". */
  predicate Truthy(v: Option<string>)
  {
    v.Some? && v.value != ""
  }

  /** Line 152: `process.env.RPC_URL || clusterApiUrl("mainnet-beta")`. */
  function RpcUrlOf(cfg: Config): string
  {
    if Truthy(cfg.rpcUrl) then cfg.rpcUrl.value else DefaultRpcUrl
  }

  /** Line 162: `(process.env.RESTRICT_INTERMEDIATE || "true") === "true"`. */
  function RestrictIntermediate(raw: Option<string>): bool
  {
    (if Truthy(raw) then raw.value else "true") == "true"
  }

  /** The decimals count handed to `uiAmountToAmount`. A NaN count acts as 0
      there: `"0".repeat(NaN)` and `.slice(0, NaN)` both give "". */
  function DecimalsOf(cfg: Config): int
  {
    cfg.inputDecimals.GetOr(0)
  }

  /** Why a run exits with status 1. */
  datatype FatalReason =
    | KeyRejected(keyError: KeyError)         // `exitWith` while loading PRIVATE_KEY
    | NoIdentity                              // line 145
    | MissingSwapParameters                   // line 165
    | AmountRejected(amountError: AmountError) // `uiAmountToAmount` throws; `main().catch`
    | QuoteFailed(message: string)            // `getQuote` throws; `main().catch`
    | BuildFailed(message: string)            // `buildSwap` throws; `main().catch`

  /** How a run ends. */
  datatype Report =
    | Fatal(reason: FatalReason)
    | NoRouteFound(quote: Option<QuoteResponse>)
    | IncompleteBuildResponse(response: Option<SwapResponse>)
    | InstructionsReturned(instructions: Instructions)
    | DeserializeFailed
    | SignFailed
    | PrimarySimulated(signed: bool, logs: Option<Logs>)
    | FallbackSimulated(signed: bool, logs: Option<Logs>)
    | FallbackFailed(signed: bool)

  /** The process exit status: only fatal reasons give 1. */
  function ExitCode(r: Report): (code: int)
    ensures code == 1 <==> r.Fatal?
    ensures code == 0 <==> !r.Fatal?
  {
    if r.Fatal? then 1 else 0
  }

  /** The JSON-RPC request of `simulateUnsignedRpc` (lines 122-135). */
  datatype RpcPayload = RpcPayload(
    jsonrpc: string,
    id: int,
    rpcMethod: string,
    transaction: string,
    sigVerify: bool,
    commitment: string)

  /** Lines 123-128: the payload always asks to skip signature checks, at the
      "confirmed" commitment, whether or not the transaction is signed. */
  function SimulatePayload(base64Tx: string): RpcPayload
  {
    RpcPayload("2.0", 1, "simulateTransaction", base64Tx, false, "confirmed")
  }

  /** The calls a run can make. */
  datatype Call =
    | QuoteRequest(url: string, query: seq<QueryParam>)
    | BuildRequest(url: string, quote: QuoteResponse, userPublicKey: string)
    | Deserialize(base64: string)
    | Sign(signer: string)
    | NativeSimulate(signed: bool)
    | Serialize(wire: string, signatures: seq<string>)
    | RpcSimulate(rpcUrl: string, payload: RpcPayload)

  const QuoteRank: nat := 0
  const BuildRank: nat := 1
  const DeserializeRank: nat := 2
  const SignRank: nat := 3
  const NativeRank: nat := 4
  const SerializeRank: nat := 5
  const RpcRank: nat := 6

  /** The position of a call in the pipeline's fixed order. */
  function Rank(c: Call): nat
  {
    match c
    case QuoteRequest(_, _) => QuoteRank
    case BuildRequest(_, _, _) => BuildRank
    case Deserialize(_) => DeserializeRank
    case Sign(_) => SignRank
    case NativeSimulate(_) => NativeRank
    case Serialize(_, _) => SerializeRank
    case RpcSimulate(_, _) => RpcRank
  }

  /** Calls happen in pipeline order, each kind at most once. */
  ghost predicate InPipelineOrder(t: seq<Call>)
  {
    forall i, j :: 0 <= i < j < |t| ==> Rank(t[i]) < Rank(t[j])
  }

  /** Some call of the given kind was made. */
  predicate Called(t: seq<Call>, rank: nat)
  {
    Occurrences(t, rank) > 0
  }

  /** How many calls of the given kind were made. */
  function Occurrences(t: seq<Call>, rank: nat): nat
  {
    if t == [] then 0 else (if Rank(t[0]) == rank then 1 else 0) + Occurrences(t[1..], rank)
  }

  lemma {:induction false} OccurrencesConcat(a: seq<Call>, b: seq<Call>, rank: nat)
    ensures Occurrences(a + b, rank) == Occurrences(a, rank) + Occurrences(b, rank)
  {
    if a != [] {
      assert (a + b)[0] == a[0] && (a + b)[1..] == a[1..] + b;
      OccurrencesConcat(a[1..], b, rank);
    } else {
      assert a + b == b;
    }
  }

  /** A trace of one call. */
  lemma Single(c: Call)
    ensures forall rank :: Occurrences([c], rank) == if Rank(c) == rank then 1 else 0
  {
    assert [c][1..] == [];
  }

  /** A call of a later kind than the last one keeps the order. */
  lemma OrderSnoc(t: seq<Call>, c: Call)
    requires InPipelineOrder(t)
    requires t != [] ==> Rank(t[|t| - 1]) < Rank(c)
    ensures InPipelineOrder(t + [c])
  {
    var u := t + [c];
    forall i, j | 0 <= i < j < |u| ensures Rank(u[i]) < Rank(u[j]) {
      if j < |t| {
        assert u[i] == t[i] && u[j] == t[j];
      } else {
        assert u[i] == t[i] && u[j] == c;
        assert i < |t| - 1 ==> Rank(t[i]) < Rank(t[|t| - 1]);
      }
    }
  }

  /** Recording one more call adds one occurrence of its kind. */
  lemma Snoc(t: seq<Call>, c: Call)
    ensures forall rank :: Occurrences(t + [c], rank) == Occurrences(t, rank) + (if Rank(c) == rank then 1 else 0)
  {
    forall rank ensures Occurrences(t + [c], rank) == Occurrences(t, rank) + (if Rank(c) == rank then 1 else 0) {
      OccurrencesConcat(t, [c], rank);
      assert [c][1..] == [];
    }
  }

  lemma {:induction false} NoOccurrences(t: seq<Call>, rank: nat)
    requires forall i :: 0 <= i < |t| ==> Rank(t[i]) != rank
    ensures Occurrences(t, rank) == 0
  {
    if t != [] {
      NoOccurrences(t[1..], rank);
    }
  }

  /** A trace in pipeline order calls each operation at most once: native
      simulate, the raw-RPC fallback and signing in particular. */
  lemma {:induction false} OrderedAtMostOnce(t: seq<Call>, rank: nat)
    requires InPipelineOrder(t)
    ensures Occurrences(t, rank) <= 1
  {
    if t != [] {
      var rest := t[1..];
      assert InPipelineOrder(rest) by {
        forall i, j | 0 <= i < j < |rest| ensures Rank(rest[i]) < Rank(rest[j]) {
          assert rest[i] == t[i + 1] && rest[j] == t[j + 1];
        }
      }
      OrderedAtMostOnce(rest, rank);
      if Rank(t[0]) == rank {
        forall i | 0 <= i < |rest| ensures Rank(rest[i]) != rank {
          assert rest[i] == t[i + 1];
        }
        NoOccurrences(rest, rank);
      }
    }
  }

  /** Appending a trace that starts with a later kind of call keeps the
      order. */
  lemma OrderConcat(a: seq<Call>, b: seq<Call>)
    requires InPipelineOrder(a) && InPipelineOrder(b)
    requires a != [] && b != [] ==> Rank(a[|a| - 1]) < Rank(b[0])
    ensures InPipelineOrder(a + b)
  {
    var t := a + b;
    forall i, j | 0 <= i < j < |t| ensures Rank(t[i]) < Rank(t[j]) {
      if j < |a| {
        assert t[i] == a[i] && t[j] == a[j];
      } else if i < |a| {
        assert t[i] == a[i] && t[j] == b[j - |a|];
        assert i < |a| - 1 ==> Rank(a[i]) < Rank(a[|a| - 1]);
        assert j - |a| > 0 ==> Rank(b[0]) < Rank(b[j - |a|]);
      } else {
        assert t[i] == b[i - |a|] && t[j] == b[j - |a|];
      }
    }
  }

  /** The outcome of the raw-RPC fallback (lines 245-257 and 287-302): a
      transport failure, or a `null` reply whose property access throws, is
      a reported failure; otherwise the logs are searched on three paths. */
  function FallbackReport(signed: bool, rpc: Result<Option<Reply>, string>): (r: Report)
    ensures (r.FallbackFailed? || r.FallbackSimulated?) && r.signed == signed
    ensures r.FallbackFailed? <==> rpc.Failure? || rpc.value.None?
    ensures r.FallbackSimulated? ==> r.logs == FirstPresent(rpc.value.value, FallbackPaths)
  {
    match rpc
    case Failure(_) => FallbackFailed(signed)
    case Success(None) => FallbackFailed(signed)
    case Success(Some(j)) => FallbackSimulated(signed, FallbackLogs(j))
  }

  /** The outcomes of every foreign call one run can make. */
  datatype Oracle = Oracle(
    keys: KeyOracle,
    quote: Result<Option<QuoteResponse>, string>,  // `getQuote`: its JSON, or the error it throws
    build: Result<Option<SwapResponse>, string>,   // `buildSwap`: likewise
    deserializes: bool,                            // `VersionedTransaction.deserialize` returns
    signs: bool,                                   // `vtx.sign` returns
    native: Result<Reply, string>,                 // `connection.simulateTransaction`
    serialized: Option<string>,                    // `vtx.serialize().toString("base64")`
    rpc: Result<Option<Reply>, string>)            // the raw JSON-RPC POST and `r.json()`

  /** A deserialized transaction; `vtx.sign` adds a signature in place. */
  class VersionedTransaction {
    const wire: string
    var signatures: seq<string>

    constructor Deserialize(wire: string)
      ensures this.wire == wire && signatures == []
    {
      this.wire := wire;
      signatures := [];
    }

    predicate Signed()
      reads this
    {
      |signatures| > 0
    }

    /** `vtx.sign([kp])`; `succeeds` is whether it returns or throws. */
    method Sign(signer: Keypair, succeeds: bool) returns (ok: bool)
      modifies this
      ensures ok == succeeds
      ensures signatures == if succeeds then old(signatures) + [signer.publicKey] else old(signatures)
    {
      ok := succeeds;
      if succeeds {
        signatures := signatures + [signer.publicKey];
      }
    }
  }

  /** What the signed stage (lines 213-258) promises: deserialize, sign,
      native simulate, and on its failure serialize and fall back to the raw
      RPC once. A deserialize or sign failure ends the stage before any
      simulation. */
  ghost predicate SignedStage(tx: string, signer: Keypair, rpcUrl: string, o: Oracle,
                              report: Report, calls: seq<Call>)
  {
    && InPipelineOrder(calls)
    && |calls| >= 1 && calls[0] == Deserialize(tx)
    && (Called(calls, SignRank) <==> o.deserializes)
    && (Called(calls, NativeRank) <==> o.deserializes && o.signs)
    && (Called(calls, SerializeRank) <==> o.deserializes && o.signs && o.native.Failure?)
    && (Called(calls, RpcRank) <==> o.deserializes && o.signs && o.native.Failure? && o.serialized.Some?)
    && (forall c :: c in calls && c.Sign? ==> c.signer == signer.publicKey)
    && (forall c :: c in calls && c.NativeSimulate? ==> c.signed)
    && (Called(calls, SerializeRank) ==> |calls| >= 4 && calls[3] == Serialize(tx, [signer.publicKey]))
    && (forall c :: c in calls && c.RpcSimulate? ==>
          o.serialized.Some? && c == RpcSimulate(rpcUrl, SimulatePayload(o.serialized.value)))
    && (!o.deserializes ==> report == DeserializeFailed)
    && (o.deserializes && !o.signs ==> report == SignFailed)
    && (o.deserializes && o.signs && o.native.Success? ==>
          report == PrimarySimulated(true, SignedPrimaryLogs(o.native.value)))
    && (o.deserializes && o.signs && o.native.Failure? ==>
          report == if o.serialized.None? then FallbackFailed(true) else FallbackReport(true, o.rpc))
  }

  /** The signed stage, with the transaction object signed in place. */
  method SimulateSigned(tx: string, signer: Keypair, rpcUrl: string, o: Oracle)
    returns (report: Report, calls: seq<Call>)
    ensures SignedStage(tx, signer, rpcUrl, o, report, calls)
  {
    calls := [Deserialize(tx)];
    Single(calls[0]);
    if !o.deserializes {
      report := DeserializeFailed;
      return;
    }
    var vtx := new VersionedTransaction.Deserialize(tx);
    Snoc(calls, Sign(signer.publicKey));
    OrderSnoc(calls, Sign(signer.publicKey));
    calls := calls + [Sign(signer.publicKey)];
    var ok := vtx.Sign(signer, o.signs);
    if !ok {
      report := SignFailed;
      return;
    }
    Snoc(calls, NativeSimulate(vtx.Signed()));
    OrderSnoc(calls, NativeSimulate(vtx.Signed()));
    calls := calls + [NativeSimulate(vtx.Signed())];
    match o.native {
      case Success(sim) =>
        report := PrimarySimulated(true, SignedPrimaryLogs(sim));
      case Failure(_) =>
        assert vtx.wire == tx && vtx.signatures == [signer.publicKey];
        var serialize := Serialize(vtx.wire, vtx.signatures);
        Snoc(calls, serialize);
        OrderSnoc(calls, serialize);
        calls := calls + [serialize];
        match o.serialized {
          case None =>
            report := FallbackFailed(true);
          case Some(signedB64) =>
            var fallback := RpcSimulate(rpcUrl, SimulatePayload(signedB64));
            Snoc(calls, fallback);
            OrderSnoc(calls, fallback);
            calls := calls + [fallback];
            report := FallbackReport(true, o.rpc);
        }
    }
  }

  /** What the unsigned stage (lines 260-303) promises: deserialize and
      native simulate inside one `try`; a failure of either falls back to
      the raw RPC once, with the transaction exactly as the builder returned
      it. Nothing is signed or serialized. */
  ghost predicate UnsignedStage(tx: string, rpcUrl: string, o: Oracle, report: Report, calls: seq<Call>)
  {
    && InPipelineOrder(calls)
    && |calls| >= 1 && calls[0] == Deserialize(tx)
    && !Called(calls, SignRank) && !Called(calls, SerializeRank)
    && (Called(calls, NativeRank) <==> o.deserializes)
    && (Called(calls, RpcRank) <==> !o.deserializes || o.native.Failure?)
    && (forall c :: c in calls && c.NativeSimulate? ==> !c.signed)
    && (forall c :: c in calls && c.RpcSimulate? ==> c == RpcSimulate(rpcUrl, SimulatePayload(tx)))
    && (o.deserializes && o.native.Success? ==>
          report == PrimarySimulated(false, UnsignedPrimaryLogs(o.native.value)))
    && (!o.deserializes || o.native.Failure? ==> report == FallbackReport(false, o.rpc))
  }

  method SimulateUnsigned(tx: string, rpcUrl: string, o: Oracle)
    returns (report: Report, calls: seq<Call>)
    ensures UnsignedStage(tx, rpcUrl, o, report, calls)
  {
    calls := [Deserialize(tx)];
    Single(calls[0]);
    if o.deserializes {
      Snoc(calls, NativeSimulate(false));
      OrderSnoc(calls, NativeSimulate(false));
      calls := calls + [NativeSimulate(false)];
      if o.native.Success? {
        report := PrimarySimulated(false, UnsignedPrimaryLogs(o.native.value));
        return;
      }
    }
    var fallback := RpcSimulate(rpcUrl, SimulatePayload(tx));
    Snoc(calls, fallback);
    OrderSnoc(calls, fallback);
    calls := calls + [fallback];
    report := FallbackReport(false, o.rpc);
  }

  /** What the configuration checks hand to the network stage. */
  datatype Run = Run(identity: Identity, rpcUrl: string, params: QuoteParams)

  /** Lines 140-178 up to the quote request: load the key, choose the
      identity, check the swap parameters and convert the amount, in that
      order; the first failure ends the run. */
  function Preflight(cfg: Config, keys: KeyOracle): (r: Result<Run, FatalReason>)
    ensures LoadKeypair(cfg.privateKey, keys).KeyFatal? ==>
      r == Failure(KeyRejected(LoadKeypair(cfg.privateKey, keys).error))
    ensures r.Failure? && r.error.KeyRejected? ==> LoadKeypair(cfg.privateKey, keys).KeyFatal?
    ensures r == Failure(NoIdentity) <==> cfg.privateKey == "" && cfg.publicKey == ""
    ensures r == Failure(MissingSwapParameters) <==>
      !LoadKeypair(cfg.privateKey, keys).KeyFatal? && (cfg.privateKey != "" || cfg.publicKey != "") &&
      !(Truthy(cfg.inputMint) && Truthy(cfg.outputMint) && Truthy(cfg.amountUi))
    ensures r.Failure? && r.error.AmountRejected? ==>
      cfg.amountUi.Some? && UiAmountToAmount(cfg.amountUi.value, DecimalsOf(cfg)) == Failure(r.error.amountError)
    ensures r.Success? <==>
      !LoadKeypair(cfg.privateKey, keys).KeyFatal? && (cfg.privateKey != "" || cfg.publicKey != "") &&
      Truthy(cfg.inputMint) && Truthy(cfg.outputMint) && Truthy(cfg.amountUi) &&
      UiAmountToAmount(cfg.amountUi.value, DecimalsOf(cfg)).Success?
    ensures r.Failure? ==> !r.error.QuoteFailed? && !r.error.BuildFailed?
    ensures r.Success? ==>
      !LoadKeypair(cfg.privateKey, keys).KeyFatal? &&
      ResolveIdentity(LoadKeypair(cfg.privateKey, keys), cfg.publicKey) == Some(r.value.identity)
    ensures r.Success? ==> r.value.rpcUrl == RpcUrlOf(cfg)
    ensures r.Success? ==> (r.value.identity.signer.Some? <==> cfg.privateKey != "")
    ensures r.Success? ==> r.value.identity.userPublicKey ==
                           (if cfg.privateKey != "" then r.value.identity.signer.value.publicKey else cfg.publicKey)
    ensures r.Success? ==> UiAmountToAmount(cfg.amountUi.value, DecimalsOf(cfg)) == Success(r.value.params.amount)
    ensures r.Success? ==> r.value.params == QuoteParams(cfg.inputMint.value, cfg.outputMint.value,
      r.value.params.amount, cfg.slippageBps, RestrictIntermediate(cfg.restrictIntermediate), false, None)
  {
    var key := LoadKeypair(cfg.privateKey, keys);
    NoKeyIff(cfg.privateKey, keys);
    if key.KeyFatal? then Failure(KeyRejected(key.error))
    else
      match ResolveIdentity(key, cfg.publicKey)
      case None => Failure(NoIdentity)
      case Some(id) =>
        if !Truthy(cfg.inputMint) || !Truthy(cfg.outputMint) || !Truthy(cfg.amountUi) then
          Failure(MissingSwapParameters)
        else
          match UiAmountToAmount(cfg.amountUi.value, DecimalsOf(cfg))
          case Failure(e) => Failure(AmountRejected(e))
          case Success(amount) =>
            Success(Run(id, RpcUrlOf(cfg), QuoteParams(cfg.inputMint.value, cfg.outputMint.value,
              amount, cfg.slippageBps, RestrictIntermediate(cfg.restrictIntermediate), false, None)))
  }

  /** The simulation stage for the transaction the builder returned:
      signed when the run has key material, unsigned otherwise. */
  ghost predicate Stage(run: Run, tx: string, o: Oracle, report: Report, calls: seq<Call>)
  {
    if run.identity.signer.Some? then
      SignedStage(tx, run.identity.signer.value, run.rpcUrl, o, report, calls)
    else
      UnsignedStage(tx, run.rpcUrl, o, report, calls)
  }

  method Simulate(run: Run, tx: string, o: Oracle) returns (report: Report, calls: seq<Call>)
    ensures Stage(run, tx, o, report, calls)
  {
    if run.identity.signer.Some? {
      report, calls := SimulateSigned(tx, run.identity.signer.value, run.rpcUrl, o);
    } else {
      report, calls := SimulateUnsigned(tx, run.rpcUrl, o);
    }
  }

  /** Either stage signs only with key material, and then before any
      simulation; a deserialize or sign failure precedes every simulate
      call; the fallback runs only after native simulate threw, or after an
      unsigned deserialize threw, and always skips signature checks. */
  lemma StageSafety(run: Run, tx: string, o: Oracle, report: Report, calls: seq<Call>)
    requires Stage(run, tx, o, report, calls)
    ensures Called(calls, SignRank) ==> run.identity.signer.Some?
    ensures run.identity.signer.Some? && Called(calls, NativeRank) ==> Called(calls, SignRank)
    ensures report.DeserializeFailed? || report.SignFailed? ==>
      !Called(calls, NativeRank) && !Called(calls, RpcRank)
    ensures Called(calls, RpcRank) ==> o.native.Failure? || (run.identity.signer.None? && !o.deserializes)
    ensures Called(calls, RpcRank) && run.identity.signer.Some? ==> Called(calls, NativeRank)
    ensures forall c :: c in calls && c.RpcSimulate? ==>
      !c.payload.sigVerify && c.payload.commitment == "confirmed" && c.rpcUrl == run.rpcUrl
  {
  }

  /** Lines 203-313: how the run goes on from a build response, and the
      calls it makes after the two requests. An incomplete response and an
      instruction list are reported and end the run with no further call; a
      serialized transaction goes through the simulation stage. */
  ghost predicate Dispatched(run: Run, o: Oracle, resp: Option<SwapResponse>, report: Report, calls: seq<Call>)
  {
    match ClassifyBuild(resp)
    case Incomplete => report == IncompleteBuildResponse(resp) && calls == []
    case InstructionList(i) => report == InstructionsReturned(i) && calls == []
    case Serialized(tx) => Stage(run, tx, o, report, calls)
  }

  /** The dispatch on the build response. */
  method Dispatch(run: Run, o: Oracle, resp: Option<SwapResponse>) returns (report: Report, calls: seq<Call>)
    ensures Dispatched(run, o, resp, report, calls)
    ensures !report.Fatal?
    ensures InPipelineOrder(calls)
    ensures calls != [] ==> calls[0].Deserialize?
  {
    match ClassifyBuild(resp) {
      case Incomplete =>
        report, calls := IncompleteBuildResponse(resp), [];
      case InstructionList(instructions) =>
        report, calls := InstructionsReturned(instructions), [];
      case Serialized(tx) =>
        report, calls := Simulate(run, tx, o);
    }
  }

  /** What one run promises once the configuration checks have passed:
      the order and the arguments of its calls, and how it ends. */
  ghost predicate NetworkRun(run: Run, o: Oracle, report: Report, trace: seq<Call>)
  {
    && InPipelineOrder(trace)
    // The quote request comes first and carries the configured query.
    && |trace| >= 1 && trace[0].QuoteRequest? && trace[0].url == QuoteEndpoint
    && IsQuoteQuery(trace[0].query, run.params)
    // The build request is made exactly when a route was selected, with the
    // quote passed through verbatim and the chosen identity.
    && (Called(trace, BuildRank) <==> o.quote.Success? && RouteSelected(ExtractTopRoute(o.quote.value)))
    && (Called(trace, BuildRank) ==>
          |trace| >= 2 && trace[1] == BuildRequest(SwapEndpoint, o.quote.value.value, run.identity.userPublicKey))
    && (!Called(trace, BuildRank) ==> |trace| == 1)
    // How the run ends: a failed quote request, no route, a failed build
    // request, or the dispatch on the build response.
    && (o.quote.Failure? ==> report == Fatal(QuoteFailed(o.quote.error)))
    && (o.quote.Success? && !RouteSelected(ExtractTopRoute(o.quote.value)) ==>
          report == NoRouteFound(o.quote.value))
    && (Called(trace, BuildRank) && o.build.Failure? ==>
          report == Fatal(BuildFailed(o.build.error)) && |trace| == 2)
    && (Called(trace, BuildRank) && o.build.Success? ==> Dispatched(run, o, o.build.value, report, trace[2..]))
    // Only the quote and build requests throwing are fatal here.
    && (report.Fatal? <==> (|trace| == 1 && o.quote.Failure?) || (|trace| == 2 && o.build.Failure?))
  }

  /** Lines 172-313: the quote request, route selection, the build request,
      the build-response dispatch and the simulation stage. */
  method RunNetwork(run: Run, o: Oracle) returns (report: Report, trace: seq<Call>)
    ensures NetworkRun(run, o, report, trace)
  {
    var query := BuildQuoteQuery(run.params);
    trace := [QuoteRequest(QuoteEndpoint, query)];
    Single(trace[0]);
    if o.quote.Failure? {
      report := Fatal(QuoteFailed(o.quote.error));
      return;
    }
    var quote := o.quote.value;
    if !RouteSelected(ExtractTopRoute(quote)) {
      report := NoRouteFound(quote);
      return;
    }
    var build := BuildRequest(SwapEndpoint, quote.value, run.identity.userPublicKey);
    Snoc(trace, build);
    OrderSnoc(trace, build);
    trace := trace + [build];
    if o.build.Failure? {
      report := Fatal(BuildFailed(o.build.error));
      return;
    }
    var calls;
    report, calls := Dispatch(run, o, o.build.value);
    var prefix := trace;
    trace := prefix + calls;
    OrderConcat(prefix, calls);
    OccurrencesConcat(prefix, calls, BuildRank);
    assert trace[..2] == prefix && trace[2..] == calls;
  }

  /** A trace of at most the two requests holds no later call. */
  lemma RequestsOnly(t: seq<Call>)
    requires |t| <= 2
    requires forall i :: 0 <= i < |t| ==> Rank(t[i]) < DeserializeRank
    ensures forall rank: nat :: rank >= DeserializeRank ==> Occurrences(t, rank) == 0
    ensures forall c :: c in t ==> !c.RpcSimulate?
  {
    forall rank: nat | rank >= DeserializeRank ensures Occurrences(t, rank) == 0 {
      NoOccurrences(t, rank);
    }
  }

  /** Over the whole run: signing happens only with key material, and then
      before any simulation; a stage that stops at deserialize or sign made
      no simulate call; the fallback runs only after native simulate threw,
      or after an unsigned deserialize threw, and always skips signature
      checks; an incomplete response or an instruction list is never
      deserialized, signed or simulated. */
  lemma {:induction false} NetworkRunSafety(run: Run, o: Oracle, report: Report, trace: seq<Call>)
    requires NetworkRun(run, o, report, trace)
    ensures Called(trace, SignRank) ==> run.identity.signer.Some?
    ensures run.identity.signer.Some? && Called(trace, NativeRank) ==> Called(trace, SignRank)
    ensures report.DeserializeFailed? || report.SignFailed? ==>
      !Called(trace, NativeRank) && !Called(trace, RpcRank)
    ensures Called(trace, RpcRank) ==> o.native.Failure? || (run.identity.signer.None? && !o.deserializes)
    ensures Called(trace, RpcRank) && run.identity.signer.Some? ==> Called(trace, NativeRank)
    ensures forall c :: c in trace && c.RpcSimulate? ==>
      !c.payload.sigVerify && c.payload.commitment == "confirmed" && c.rpcUrl == run.rpcUrl
    ensures report.IncompleteBuildResponse? || report.InstructionsReturned? ==> |trace| == 2
  {
    var n := if Called(trace, BuildRank) then 2 else 1;
    var head, calls := trace[..n], trace[n..];
    assert trace == head + calls;
    RequestsOnly(head);
    forall rank: nat ensures Occurrences(trace, rank) == Occurrences(head, rank) + Occurrences(calls, rank) {
      OccurrencesConcat(head, calls, rank);
    }
    if Called(trace, BuildRank) && o.build.Success? {
      match ClassifyBuild(o.build.value)
      case Serialized(tx) =>
        StageSafety(run, tx, o, report, calls);
      case Incomplete =>
      case InstructionList(_) =>
    }
  }

  /** One run of `main`. */
  method RunSwap(cfg: Config, o: Oracle) returns (report: Report, trace: seq<Call>)
    ensures InPipelineOrder(trace)
    ensures forall rank: nat :: Occurrences(trace, rank) <= 1
    // Configuration errors end the run before any request.
    ensures Preflight(cfg, o.keys).Failure? <==> trace == []
    ensures Preflight(cfg, o.keys).Failure? ==> report == Fatal(Preflight(cfg, o.keys).error)
    ensures Preflight(cfg, o.keys).Success? ==> NetworkRun(Preflight(cfg, o.keys).value, o, report, trace)
    // Exit status 1 comes only from configuration errors and from the quote
    // and build requests throwing.
    ensures ExitCode(report) == 1 <==>
      trace == [] || (|trace| == 1 && o.quote.Failure?) || (|trace| == 2 && o.build.Failure?)
  {
    var pre := Preflight(cfg, o.keys);
    if pre.Failure? {
      report := Fatal(pre.error);
      trace := [];
      return;
    }
    report, trace := RunNetwork(pre.value, o);
    OrderedAtMostOnceAll(trace);
  }

  lemma OrderedAtMostOnceAll(t: seq<Call>)
    requires InPipelineOrder(t)
    ensures forall rank: nat :: Occurrences(t, rank) <= 1
  {
    forall rank: nat ensures Occurrences(t, rank) <= 1 {
      OrderedAtMostOnce(t, rank);
    }
  }
}
