/** The build response of `/swap` and how `main` sorts it
    (jupitor-swaps/src/index.js:203-213, 306-313). The POST itself is an
    oracle outcome in `SwapPipeline`. */
module TransactionBuilder {
  import opened Wrappers

  const SwapEndpoint := "https://lite-api.jup.ag/swap/v1/swap"

  /** A raw instruction list, kept as its JSON text. */
  datatype Instructions = Instructions(json: string)

  /** A truthy build response as far as `main` reads it. `swapTransaction`
      is the base64 transaction when present; `swapInstructions` is `None`
      when absent or falsy. */
  datatype SwapResponse = SwapResponse(
    swapTransaction: Option<string>,
    swapInstructions: Option<Instructions>)

  /** The three ways `main` goes on after the build request. */
  datatype BuildKind =
    | Incomplete                               // lines 203-207: dump and stop
    | Serialized(base64: string)               // lines 210-304: sign and/or simulate
    | InstructionList(instructions: Instructions) // lines 306-313: report and stop

  /** `swapResp.swapTransaction` is truthy: present and not "". */
  predicate HasTransaction(r: SwapResponse)
  {
    r.swapTransaction.Some? && r.swapTransaction.value != ""
  }

  /** `resp` is `None` for a falsy JSON value (`null`). */
  function ClassifyBuild(resp: Option<SwapResponse>): (k: BuildKind)
    ensures k.Incomplete? <==> resp.None? || (!HasTransaction(resp.value) && resp.value.swapInstructions.None?)
    ensures k.Serialized? <==> resp.Some? && HasTransaction(resp.value)
    ensures k.Serialized? ==> k.base64 == resp.value.swapTransaction.value && k.base64 != ""
    ensures k.InstructionList? ==> resp.Some? && !HasTransaction(resp.value) &&
                                   resp.value.swapInstructions == Some(k.instructions)
  {
    if resp.None? then Incomplete
    else if !HasTransaction(resp.value) && resp.value.swapInstructions.None? then Incomplete
    else if HasTransaction(resp.value) then Serialized(resp.value.swapTransaction.value)
    else InstructionList(resp.value.swapInstructions.value)
  }

  /** When both variants are present the serialized transaction is used. */
  lemma TransactionPreferred(t: string, i: Instructions)
    requires t != ""
    ensures ClassifyBuild(Some(SwapResponse(Some(t), Some(i)))) == Serialized(t)
  {
  }
}
