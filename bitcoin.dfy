/** The two fee endpoints of the service (app/routers/bitcoin.py): the smart-fee
    estimate re-expressed in satoshis per vbyte, and the fee a transaction pays.

    Feerates are integers in satoshis per kilo-vbyte (the node reports BTC per
    kilo-vbyte with eight decimals); amounts are integer satoshis. */
module Bitcoin {
  import opened Client

  // ---------------------------------------------------------------------------
  // Python's round

  /** `round(n / d)` as Python computes it on an exact quotient: the nearest
      integer, a tie going to the even neighbour. */
  function RoundHalfEven(n: int, d: int): (r: int)
    requires d > 0
    ensures -d <= 2 * (n - r * d) <= d
    ensures (2 * (n - r * d) == d || 2 * (n - r * d) == -d) ==> r % 2 == 0
    ensures n % d == 0 ==> r * d == n
  {
    var q, rem := n / d, n % d;
    assert n == q * d + rem;
    assert (q + 1) * d == q * d + d;
    if 2 * rem < d then q
    else if 2 * rem > d then q + 1
    else if q % 2 == 0 then q
    else q + 1
  }

  /** The facts about `k * d` the uniqueness proof needs. */
  lemma ScaledDifference(m: int, k: int, d: int)
    requires d > 0
    ensures (m + k) * d == m * d + k * d
    ensures k >= 2 ==> k * d >= 2 * d
    ensures k <= -2 ==> k * d <= -2 * d
    ensures k == 1 ==> k * d == d
    ensures k == -1 ==> k * d == -d
    ensures k == 0 ==> k * d == 0
  {
    if k >= 2 {
      assert k * d == 2 * d + (k - 2) * d;
    } else if k <= -2 {
      assert k * d == -2 * d - (-k - 2) * d;
    }
  }

  /** The two properties of RoundHalfEven's contract single out one integer,
      so they define Python's rounding completely. */
  lemma RoundHalfEvenUnique(n: int, d: int, m: int)
    requires d > 0
    requires -d <= 2 * (n - m * d) <= d
    requires (2 * (n - m * d) == d || 2 * (n - m * d) == -d) ==> m % 2 == 0
    ensures m == RoundHalfEven(n, d)
  {
    var r := RoundHalfEven(n, d);
    ScaledDifference(m, r - m, d);
    assert m + (r - m) == r;
  }

  // ---------------------------------------------------------------------------
  // fee_estimate

  const MaxTargetBlocks: int := 1008
  const DefaultTargetBlocks: int := 1

  /** Satoshis per kilo-vbyte to satoshis per vbyte: one BTC is 10^8 satoshis
      and one kilo-vbyte is 1000 vbytes, so BTC/kvB times 100 000 is the
      quotient by 1000 of sat/kvB. */
  function SatsPerVByte(satPerKvB: int): (r: int)
    ensures -1000 <= 2 * (satPerKvB - r * 1000) <= 1000
    ensures satPerKvB % 1000 == 0 ==> r * 1000 == satPerKvB
  {
    RoundHalfEven(satPerKvB, 1000)
  }

  /** The fee-estimate response: the target the node's estimate is valid for,
      its feerate, and that feerate in satoshis per vbyte. */
  datatype FeeEstimateResponse = FeeEstimateResponse(targetBlocks: int, feerate: int, satsPerVByte: int)

  /** The requested confirmation target, one block when none is given. */
  function Target(blocks: Option<int>): int
  {
    if blocks.Some? then blocks.value else DefaultTargetBlocks
  }

  /** What `call_rpc("estimatesmartfee", [target])` hands back. */
  function EstimateReply(u: Upstream, target: int): Result<Option<Payload>>
  {
    CallRpc(u, "estimatesmartfee", [Int(target)])
  }

  /** The node answered with an estimate whose feerate is null. */
  predicate NullFeerate(reply: Result<Option<Payload>>)
  {
    reply.Ok? && reply.value.Some? && reply.value.value.SmartFee? && reply.value.value.feerate.None?
  }

  /** The node answered with an estimate that has a feerate. */
  predicate HasFeerate(reply: Result<Option<Payload>>)
  {
    reply.Ok? && reply.value.Some? && reply.value.value.SmartFee? && reply.value.value.feerate.Some?
  }

  /** `fee_estimate`: reject a target above 1008 before asking the node, treat
      a null feerate as "not found", otherwise convert the feerate and echo the
      node's own target. */
  function FeeEstimate(u: Upstream, blocks: Option<int>): (r: Result<FeeEstimateResponse>)
    ensures Target(blocks) > MaxTargetBlocks ==> r == Err(TargetTooLarge(Target(blocks)))
    ensures Target(blocks) <= MaxTargetBlocks && EstimateReply(u, Target(blocks)).Err? ==>
              r == Err(EstimateReply(u, Target(blocks)).error)
    ensures Target(blocks) <= MaxTargetBlocks && NullFeerate(EstimateReply(u, Target(blocks))) ==>
              r == Err(NoEstimate(Target(blocks)))
    ensures r.Ok? <==> Target(blocks) <= MaxTargetBlocks && HasFeerate(EstimateReply(u, Target(blocks)))
    ensures r.Ok? ==> EstimateReply(u, Target(blocks)) == Ok(Some(SmartFee(Some(r.value.feerate), r.value.targetBlocks)))
    ensures r.Ok? ==> -1000 <= 2 * (r.value.feerate - r.value.satsPerVByte * 1000) <= 1000
  {
    var target := Target(blocks);
    if target > MaxTargetBlocks then Err(TargetTooLarge(target))
    else
      var result :- EstimateReply(u, target);
      match result
      case None => Err(MalformedResult("estimatesmartfee"))
      case Some(RawTx(_)) => Err(NoEstimate(target))
      case Some(SmartFee(None, _)) => Err(NoEstimate(target))
      case Some(SmartFee(Some(rate), echoed)) =>
        Ok(FeeEstimateResponse(echoed, rate, SatsPerVByte(rate)))
  }

  /** A target above 1008 fails with status 502 whatever the node would have
      answered: no request is needed to decide it. 1008 itself is let through. */
  lemma FeeEstimateRejectsBeforeCalling(u1: Upstream, u2: Upstream, blocks: int)
    requires blocks > MaxTargetBlocks
    ensures FeeEstimate(u1, Some(blocks)) == FeeEstimate(u2, Some(blocks))
    ensures StatusCode(FeeEstimate(u1, Some(blocks)).error) == 502
    ensures FeeEstimate(u1, Some(MaxTargetBlocks)) != Err(TargetTooLarge(MaxTargetBlocks))
  {
  }

  /** Within range, the outcome depends only on the node's reply to the one
      request `estimatesmartfee [target]`. */
  lemma FeeEstimateAsksOnce(u1: Upstream, u2: Upstream, blocks: Option<int>)
    requires u1(MakeRequest("estimatesmartfee", [Int(Target(blocks))])) ==
             u2(MakeRequest("estimatesmartfee", [Int(Target(blocks))]))
    ensures FeeEstimate(u1, blocks) == FeeEstimate(u2, blocks)
  {
  }

  /** Without a `blocks` argument the target is one block. */
  lemma FeeEstimateDefaultTarget(u: Upstream)
    ensures FeeEstimate(u, None) == FeeEstimate(u, Some(1))
  {
  }

  /** The estimate in satoshis per vbyte is exactly Python's rounding of the
      feerate's quotient by 1000, and a null feerate is "not found" (404). */
  lemma FeeEstimateConverts(u: Upstream, blocks: Option<int>)
    requires Target(blocks) <= MaxTargetBlocks
    ensures HasFeerate(EstimateReply(u, Target(blocks))) ==>
              FeeEstimate(u, blocks).Ok? &&
              FeeEstimate(u, blocks).value.satsPerVByte == RoundHalfEven(FeeEstimate(u, blocks).value.feerate, 1000)
    ensures NullFeerate(EstimateReply(u, Target(blocks))) ==> StatusCode(FeeEstimate(u, blocks).error) == 404
  {
    if HasFeerate(EstimateReply(u, Target(blocks))) {
      var e := FeeEstimate(u, blocks).value;
      RoundHalfEvenUnique(e.feerate, 1000, e.satsPerVByte);
    }
  }

  /** A node answering every request with an estimate of 1000 sat/kvB
      (0.00001 BTC/kvB) for a two-block target. */
  function NodeEstimating1000(): Upstream
  {
    req => Some(Envelope(200, NoError, Some(SmartFee(Some(1000), 2))))
  }

  /** 0.00001 BTC/kvB is 1 sat/vB; the node's target 2 is echoed, not the
      requested 1. */
  lemma FeeEstimateExample()
    ensures FeeEstimate(NodeEstimating1000(), None) == Ok(FeeEstimateResponse(2, 1000, 1))
  {
  }

  // ---------------------------------------------------------------------------
  // get_tx_fees

  /** The transaction-fee response: the transaction id, the sums of its inputs
      and outputs, and the fee, all in satoshis. */
  datatype TxFeesResponse = TxFeesResponse(txid: string, inputSats: int, outputSats: int, fees: int)

  /** `get_tx_fees`: fetch the transaction, total the outputs its inputs spend
      and its own outputs, and report the difference. */
  function GetTxFees(u: Upstream, txid: string): (r: Result<TxFeesResponse>)
    ensures FetchTx(u, txid).Err? ==> r == Err(FetchTx(u, txid).error)
    ensures FetchTx(u, txid).Ok? && InputTotal(u, FetchTx(u, txid).value.vin).Err? ==>
              r == Err(InputTotal(u, FetchTx(u, txid).value.vin).error)
    ensures r.Ok? <==> FetchTx(u, txid).Ok? && InputTotal(u, FetchTx(u, txid).value.vin).Ok?
    ensures r.Ok? ==> r.value.txid == txid
    ensures r.Ok? ==> InputTotal(u, FetchTx(u, txid).value.vin) == Ok(r.value.inputSats)
    ensures r.Ok? ==> r.value.outputSats == Total(FetchTx(u, txid).value.vout)
    ensures r.Ok? ==> r.value.fees == r.value.inputSats - r.value.outputSats
  {
    var tx :- FetchTx(u, txid);
    var inputs :- InputTotal(u, tx.vin);
    var outputs := Total(tx.vout);
    Ok(TxFeesResponse(txid, inputs, outputs, inputs - outputs))
  }

  /** `get_tx_fees` as the source writes it. An exception from fetching the
      transaction is logged and swallowed, so the next read of `result` raises
      UnboundLocalError; a null result raises AttributeError and a result that
      is no transaction leaves the input list null (TypeError). The inputs are
      totalled by the source's own input loop. */
  function GetTxFeesAsWritten(u: Upstream, txid: string): (r: Result<TxFeesResponse>)
    ensures r.Err? ==> r.error.Crash? && StatusCode(r.error) == 500
    ensures CallRpc(u, "getrawtransaction", [Str(txid), Bool(true)]).Err? ==> r == Err(Crash("UnboundLocalError"))
  {
    var fetched := CallRpc(u, "getrawtransaction", [Str(txid), Bool(true)]);
    if fetched.Err? then Err(Crash("UnboundLocalError"))
    else
      match fetched.value
      case None => Err(Crash("AttributeError"))
      case Some(SmartFee(_, _)) => Err(Crash("TypeError"))
      case Some(RawTx(tx)) =>
        var inputs :- InputTotalAsWritten(u, tx.vin, None, 0);
        var outputs := Total(tx.vout);
        Ok(TxFeesResponse(txid, inputs, outputs, inputs - outputs))
  }

  /** Where the corrected endpoint succeeds, the source's endpoint gives the
      same response. */
  lemma GetTxFeesAsWrittenAgrees(u: Upstream, txid: string)
    requires GetTxFees(u, txid).Ok?
    ensures GetTxFeesAsWritten(u, txid) == GetTxFees(u, txid)
  {
    var tx := FetchTx(u, txid).value;
    AsWrittenAgreesWhenAllResolve(u, tx.vin, None, 0);
  }

  /** A node that answers every request with a populated `error` field. */
  function NodeAlwaysErring(): Upstream
  {
    req => Some(Envelope(200, RpcError(-5, "No such mempool or blockchain transaction"), None))
  }

  /** Counterexample: when the node reports an error for the transaction
      itself, the source answers 500 (UnboundLocalError), while the corrected
      endpoint passes the node's error on with 502. */
  lemma AsWrittenHidesUpstreamError()
    ensures GetTxFeesAsWritten(NodeAlwaysErring(), "t") == Err(Crash("UnboundLocalError"))
    ensures StatusCode(GetTxFeesAsWritten(NodeAlwaysErring(), "t").error) == 500
    ensures GetTxFees(NodeAlwaysErring(), "t") == Err(UpstreamError(-5, "No such mempool or blockchain transaction"))
    ensures StatusCode(GetTxFees(NodeAlwaysErring(), "t").error) == 502
  {
    var u := NodeAlwaysErring();
    assert u(GetRawTransaction("t")) == Some(Envelope(200, RpcError(-5, "No such mempool or blockchain transaction"), None));
  }

  /** One input that cannot be resolved fails the whole call with status 500;
      it is never counted as zero. */
  lemma GetTxFeesAllOrNothing(u: Upstream, txid: string, k: nat)
    requires FetchTx(u, txid).Ok?
    requires k < |FetchTx(u, txid).value.vin|
    requires Lookup(u, FetchTx(u, txid).value.vin[k]).Err?
    ensures GetTxFees(u, txid).Err?
    ensures StatusCode(GetTxFees(u, txid).error) == 500
  {
    InputTotalAllOrNothing(u, FetchTx(u, txid).value.vin);
  }

  /** The fee is not checked for sign: a transaction without inputs reports
      minus the sum of its outputs. */
  lemma GetTxFeesWithoutInputs(u: Upstream, txid: string)
    requires FetchTx(u, txid).Ok? && FetchTx(u, txid).value.vin == []
    ensures GetTxFees(u, txid).Ok?
    ensures GetTxFees(u, txid).value.fees == -Total(FetchTx(u, txid).value.vout)
  {
  }

  /** A node that knows transaction "t", spending output 0 of "p" and paying
      10 BTC, and transaction "p", whose output 0 holds 10.0001 BTC. */
  function NodeWithTwoTxs(): Upstream
  {
    req =>
      if req == GetRawTransaction("t") then
        Some(Envelope(200, NoError, Some(RawTx(Tx([Outpoint("p", 0)], [Output(1_000_000_000)])))))
      else if req == GetRawTransaction("p") then
        Some(Envelope(200, NoError, Some(RawTx(Tx([], [Output(1_000_010_000)])))))
      else None
  }

  /** Inputs of 10.0001 BTC and outputs of 10 BTC pay a fee of 10000 satoshis. */
  lemma GetTxFeesExample()
    ensures GetTxFees(NodeWithTwoTxs(), "t") == Ok(TxFeesResponse("t", 1_000_010_000, 1_000_000_000, 10_000))
  {
    var u := NodeWithTwoTxs();
    assert GetRawTransaction("p") != GetRawTransaction("t") by {
      assert GetRawTransaction("p").params[0] != GetRawTransaction("t").params[0];
    }
    var tx := Tx([Outpoint("p", 0)], [Output(1_000_000_000)]);
    assert FetchTx(u, "t") == Ok(tx);
    assert Lookup(u, Outpoint("p", 0)) == Ok(Output(1_000_010_000));
    assert tx.vin[..|tx.vin| - 1] == [];
    assert Spent(u, []) == Ok([]);
    assert Spent(u, tx.vin) == Ok([] + [Output(1_000_010_000)]);
    assert [Output(1_000_010_000)][..0] == [];
    assert tx.vout[..0] == [];
  }
}
