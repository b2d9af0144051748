/** The JSON-RPC client of the fee service (app/clients/client.py): the request
    envelope, the decision taken on the node's reply, and the two totals the
    transaction-fee endpoint needs — the sum of a transaction's outputs and the
    sum of the prior outputs its inputs spend.

    Amounts are integer satoshis. The upstream node is a total function from a
    request to its reply; `None` stands for a reply that never arrives or is not
    JSON (a transport failure). */
module Client {

  datatype Option<T> = None | Some(value: T)

  // ---------------------------------------------------------------------------
  // Data model

  /** A reference from an input to the output it spends: the prior
      transaction's id and the position of the output in it. */
  datatype Outpoint = Outpoint(txid: string, vout: nat)

  /** One transaction output; only its value (in satoshis) matters here. */
  datatype Output = Output(value: int)

  /** The verbose form of `getrawtransaction`, reduced to its inputs and outputs. */
  datatype Tx = Tx(vin: seq<Outpoint>, vout: seq<Output>)

  /** The `result` payloads of the two RPC methods the service uses.
      A `SmartFee` feerate is in satoshis per kilo-vbyte; `None` is a null or
      absent `feerate`. */
  datatype Payload =
    | RawTx(tx: Tx)
    | SmartFee(feerate: Option<int>, blocks: int)

  /** A JSON parameter of an RPC request. */
  datatype Param = Str(s: string) | Int(i: int) | Bool(b: bool)

  /** The JSON-RPC 1.0 request body. */
  datatype Request = Request(jsonrpc: string, id: string, rpcMethod: string, params: seq<Param>)

  /** The `error` field of a reply: absent or null, present but falsy in
      Python (an empty object or string), or a populated error object. */
  datatype ErrorField = NoError | EmptyError | RpcError(code: int, message: string)

  /** A parsed reply: the HTTP status, the `error` field and the `result`
      field (`None` when it is null or absent). */
  datatype Envelope = Envelope(httpStatus: int, error: ErrorField, result: Option<Payload>)

  type Upstream = Request -> Option<Envelope>

  /** The typed failures of the service. */
  datatype Error =
    | TransportError(rpcMethod: string)                  // no parseable reply
    | UpstreamError(code: int, message: string)       // populated `error` field
    | MalformedResult(rpcMethod: string)                 // null or wrongly shaped `result`
    | TargetTooLarge(blocks: int)                     // fee target above 1008
    | NoEstimate(blocks: int)                         // null `feerate`
    | UnresolvedInput(prevout: Outpoint, cause: Error) // an input's prior transaction could not be fetched
    | NoSuchOutput(prevout: Outpoint, outputs: nat)    // an input names an output its prior transaction lacks
    | Crash(exception: string)                        // an unhandled Python exception (as-written model only)

  datatype Result<T> = Ok(value: T) | Err(error: Error) {
    predicate IsFailure() { Err? }
    function PropagateFailure<U>(): Result<U> requires Err? { Err(error) }
    function Extract(): T requires Ok? { value }
  }

  /** The HTTP status each failure reaches the caller with: the two
      `HTTPException`s raised on purpose carry 502 and 404, every other
      exception surfaces as an internal server error. */
  function StatusCode(e: Error): (code: nat)
    ensures code == 404 <==> e.NoEstimate?
    ensures code == 502 <==> e.UpstreamError? || e.TargetTooLarge?
    ensures code == 404 || code == 500 || code == 502
  {
    match e
    case UpstreamError(_, _) => 502
    case TargetTooLarge(_) => 502
    case NoEstimate(_) => 404
    case _ => 500
  }

  // ---------------------------------------------------------------------------
  // call_rpc

  const JsonRpcVersion: string := "1.0"
  const ClientId: string := "timechain"

  /** The request envelope `call_rpc` posts. */
  function MakeRequest(rpcMethod: string, params: seq<Param>): (req: Request)
    ensures req.jsonrpc == "1.0" && req.id == "timechain"
    ensures req.rpcMethod == rpcMethod && req.params == params
  {
    Request(JsonRpcVersion, ClientId, rpcMethod, params)
  }

  /** Python truthiness of the `error` field. */
  predicate Truthy(e: ErrorField)
  {
    e.RpcError?
  }

  /** The decision `call_rpc` takes on a reply: a truthy `error` field fails the
      call whatever the HTTP status; otherwise `result` is handed back as it is. */
  function Unwrap(rpcMethod: string, reply: Option<Envelope>): (r: Result<Option<Payload>>)
    ensures reply.None? ==> r == Err(TransportError(rpcMethod))
    ensures reply.Some? && Truthy(reply.value.error) ==>
              r == Err(UpstreamError(reply.value.error.code, reply.value.error.message))
    ensures reply.Some? && !Truthy(reply.value.error) ==> r == Ok(reply.value.result)
  {
    match reply
    case None => Err(TransportError(rpcMethod))
    case Some(env) =>
      if Truthy(env.error) then Err(UpstreamError(env.error.code, env.error.message))
      else Ok(env.result)
  }

  /** The reply decision never looks at the HTTP status. */
  lemma UnwrapIgnoresHttpStatus(rpcMethod: string, env: Envelope, status: int)
    ensures Unwrap(rpcMethod, Some(env)) == Unwrap(rpcMethod, Some(env.(httpStatus := status)))
    ensures Unwrap(rpcMethod, Some(env)).Err? <==> Truthy(env.error)
  {
  }

  /** `call_rpc(rpcMethod, params)` against the upstream node `u`. */
  function CallRpc(u: Upstream, rpcMethod: string, params: seq<Param>): (r: Result<Option<Payload>>)
    ensures r.Ok? <==> u(MakeRequest(rpcMethod, params)).Some? && !Truthy(u(MakeRequest(rpcMethod, params)).value.error)
    ensures r.Ok? ==> r.value == u(MakeRequest(rpcMethod, params)).value.result
  {
    Unwrap(rpcMethod, u(MakeRequest(rpcMethod, params)))
  }

  /** The `getrawtransaction` request for `txid`, verbose. */
  function GetRawTransaction(txid: string): Request
  {
    MakeRequest("getrawtransaction", [Str(txid), Bool(true)])
  }

  /** Fetches a transaction: the call must succeed and its result must be a
      transaction. */
  function FetchTx(u: Upstream, txid: string): (r: Result<Tx>)
    ensures r.Ok? <==> (u(GetRawTransaction(txid)).Some? &&
                        !Truthy(u(GetRawTransaction(txid)).value.error) &&
                        u(GetRawTransaction(txid)).value.result.Some? &&
                        u(GetRawTransaction(txid)).value.result.value.RawTx?)
    ensures r.Ok? ==> u(GetRawTransaction(txid)).value.result == Some(RawTx(r.value))
  {
    var result :- CallRpc(u, "getrawtransaction", [Str(txid), Bool(true)]);
    match result
    case Some(RawTx(tx)) => Ok(tx)
    case _ => Err(MalformedResult("getrawtransaction"))
  }

  // ---------------------------------------------------------------------------
  // get_output_total

  /** The sum of the outputs' values, accumulated left to right. */
  function Total(outs: seq<Output>): int
  {
    if outs == [] then 0 else Total(outs[..|outs| - 1]) + outs[|outs| - 1].value
  }

  /** `get_output_total`: the loop that adds up the outputs' values. */
  method GetOutputTotal(vout: seq<Output>) returns (total: int)
    ensures total == Total(vout)
    ensures vout == [] ==> total == 0
  {
    total := 0;
    for i := 0 to |vout|
      invariant total == Total(vout[..i])
    {
      assert vout[..i + 1][..i] == vout[..i];
      total := total + vout[i].value;
    }
    assert vout[..|vout|] == vout;
  }

  /** Appending one output raises the total by exactly that output's value. */
  lemma TotalAppend(outs: seq<Output>, o: Output)
    ensures Total(outs + [o]) == Total(outs) + o.value
  {
    assert (outs + [o])[..|outs|] == outs;
  }

  lemma {:induction false} TotalConcat(a: seq<Output>, b: seq<Output>)
    ensures Total(a + b) == Total(a) + Total(b)
    decreases |b|
  {
    if b == [] {
      assert a + b == a;
    } else {
      var b' := b[..|b| - 1];
      var o := b[|b| - 1];
      assert b == b' + [o];
      assert a + b == (a + b') + [o];
      TotalConcat(a, b');
      TotalAppend(a + b', o);
      TotalAppend(b', o);
    }
  }

  /** Taking out the output at position `j` takes its value out of the total. */
  lemma TotalRemoveAt(b: seq<Output>, j: nat)
    requires j < |b|
    ensures Total(b) == Total(b[..j] + b[j + 1..]) + b[j].value
  {
    var pre, mid, post := b[..j], b[..j + 1], b[j + 1..];
    assert mid == pre + [b[j]];
    assert b == mid + post;
    TotalConcat(mid, post);
    TotalAppend(pre, b[j]);
    TotalConcat(pre, post);
  }

  /** The total is the first value plus the total of the rest. */
  lemma TotalHead(s: seq<Output>)
    requires s != []
    ensures Total(s) == s[0].value + Total(s[1..])
  {
    TotalConcat([s[0]], s[1..]);
    assert [s[0]] + s[1..] == s;
    TotalAppend([], s[0]);
    assert [] + [s[0]] == [s[0]];
  }

  /** The total does not depend on the order of the outputs. */
  lemma {:induction false} TotalPermutation(a: seq<Output>, b: seq<Output>)
    requires multiset(a) == multiset(b)
    ensures Total(a) == Total(b)
    decreases |a|
  {
    if a == [] {
      assert |b| == |multiset(b)| == 0;
    } else {
      var n := |a| - 1;
      assert a[n] in multiset(b);
      var j :| 0 <= j < |b| && b[j] == a[n];
      MultisetWithout(a, n);
      MultisetWithout(b, j);
      TotalPermutation(a[..n] + a[n + 1..], b[..j] + b[j + 1..]);
      TotalRemoveAt(a, n);
      TotalRemoveAt(b, j);
    }
  }

  /** With non-negative values, the total is non-negative and at least every
      single value. */
  lemma {:induction false} TotalBounds(outs: seq<Output>)
    requires forall i :: 0 <= i < |outs| ==> outs[i].value >= 0
    ensures Total(outs) >= 0
    ensures forall i :: 0 <= i < |outs| ==> Total(outs) >= outs[i].value
    decreases |outs|
  {
    if outs != [] {
      var outs' := outs[..|outs| - 1];
      TotalBounds(outs');
      assert forall i :: 0 <= i < |outs'| ==> outs[i] == outs'[i];
    }
  }

  // ---------------------------------------------------------------------------
  // get_input_total

  /** The output an input spends: its prior transaction is fetched and the
      output at the input's index is read. Both a failed fetch and an index
      past the end fail the lookup, naming the input. */
  function Lookup(u: Upstream, inp: Outpoint): (r: Result<Output>)
    ensures r.Ok? <==> FetchTx(u, inp.txid).Ok? && inp.vout < |FetchTx(u, inp.txid).value.vout|
    ensures r.Ok? ==> r.value == FetchTx(u, inp.txid).value.vout[inp.vout]
    ensures r.Err? ==> r.error.UnresolvedInput? || r.error.NoSuchOutput?
    ensures r.Err? ==> r.error.prevout == inp
  {
    match FetchTx(u, inp.txid)
    case Err(e) => Err(UnresolvedInput(inp, e))
    case Ok(tx) =>
      if inp.vout < |tx.vout| then Ok(tx.vout[inp.vout])
      else Err(NoSuchOutput(inp, |tx.vout|))
  }

  /** The outputs spent by `vin`, resolved in order, all or nothing: one
      failed lookup fails the whole resolution with the first failure. */
  function Spent(u: Upstream, vin: seq<Outpoint>): (r: Result<seq<Output>>)
    ensures r.Ok? <==> forall k {:trigger Lookup(u, vin[k])} :: 0 <= k < |vin| ==> Lookup(u, vin[k]).Ok?
    ensures r.Ok? ==> |r.value| == |vin|
    ensures r.Ok? ==> forall k {:trigger Lookup(u, vin[k])} :: 0 <= k < |vin| ==> Lookup(u, vin[k]) == Ok(r.value[k])
    decreases |vin|
  {
    if vin == [] then Ok([])
    else
      var init := vin[..|vin| - 1];
      assert forall k :: 0 <= k < |init| ==> init[k] == vin[k];
      var prefix :- Spent(u, init);
      var o :- Lookup(u, vin[|vin| - 1]);
      Ok(prefix + [o])
  }

  /** `get_input_total`, as a specification: the sum of the spent outputs, or
      the failure of the first input that cannot be resolved. */
  function InputTotal(u: Upstream, vin: seq<Outpoint>): Result<int>
  {
    var spent :- Spent(u, vin);
    Ok(Total(spent))
  }

  /** Resolving one more input: the prefix's failure stays, otherwise the
      new input's lookup decides. */
  lemma SpentStep(u: Upstream, vin: seq<Outpoint>, i: nat)
    requires i < |vin|
    ensures Spent(u, vin[..i + 1]) ==
              if Spent(u, vin[..i]).Err? then Spent(u, vin[..i])
              else if Lookup(u, vin[i]).Err? then Err(Lookup(u, vin[i]).error)
              else Ok(Spent(u, vin[..i]).value + [Lookup(u, vin[i]).value])
  {
    assert vin[..i + 1][..i] == vin[..i];
  }

  /** A failed resolution carries the failure of the first input that cannot
      be resolved. */
  lemma {:induction false} SpentFirstFailure(u: Upstream, vin: seq<Outpoint>) returns (k: nat)
    requires Spent(u, vin).Err?
    ensures k < |vin| && Lookup(u, vin[k]) == Err(Spent(u, vin).error)
    ensures forall j :: 0 <= j < k ==> Lookup(u, vin[j]).Ok?
    decreases |vin|
  {
    var init := vin[..|vin| - 1];
    assert forall j :: 0 <= j < |init| ==> init[j] == vin[j];
    if Spent(u, init).Err? {
      k := SpentFirstFailure(u, init);
    } else {
      k := |vin| - 1;
    }
  }

  /** The input total fails exactly when some input's lookup fails, and then
      with the failure of the first such input; an unresolved input is never
      counted as zero. */
  lemma InputTotalAllOrNothing(u: Upstream, vin: seq<Outpoint>)
    ensures InputTotal(u, vin).Err? <==> exists k :: 0 <= k < |vin| && Lookup(u, vin[k]).Err?
    ensures InputTotal(u, vin).Err? ==>
              exists k :: 0 <= k < |vin| && Lookup(u, vin[k]) == Err(InputTotal(u, vin).error) &&
                          forall j :: 0 <= j < k ==> Lookup(u, vin[j]).Ok?
  {
    if Spent(u, vin).Err? {
      var k := SpentFirstFailure(u, vin);
    }
  }

  /** A failure among the first `k` inputs is the failure of the whole list. */
  lemma {:induction false} SpentPrefixFails(u: Upstream, vin: seq<Outpoint>, k: nat)
    requires k <= |vin|
    requires Spent(u, vin[..k]).Err?
    ensures Spent(u, vin) == Spent(u, vin[..k])
    decreases |vin| - k
  {
    if k < |vin| {
      SpentStep(u, vin, k);
      SpentPrefixFails(u, vin, k + 1);
    } else {
      assert vin[..k] == vin;
    }
  }

  /** The `getrawtransaction` requests that resolving `vin` posts, in order. */
  function Requests(vin: seq<Outpoint>): seq<Request>
  {
    if vin == [] then [] else Requests(vin[..|vin| - 1]) + [GetRawTransaction(vin[|vin| - 1].txid)]
  }

  /** One verbose `getrawtransaction` request per input, for that input's
      prior transaction, in the inputs' order. */
  lemma {:induction false} RequestsAt(vin: seq<Outpoint>)
    ensures |Requests(vin)| == |vin|
    ensures forall k :: 0 <= k < |vin| ==> Requests(vin)[k] == GetRawTransaction(vin[k].txid)
    decreases |vin|
  {
    if vin != [] {
      var init := vin[..|vin| - 1];
      RequestsAt(init);
      assert forall k :: 0 <= k < |init| ==> init[k] == vin[k];
    }
  }

  /** One step of the input loop: a resolved input extends the spent outputs
      and the total by its output; an unresolved one is the failure of the
      whole list. */
  lemma InputStep(u: Upstream, vin: seq<Outpoint>, i: nat, spent: seq<Output>)
    requires i < |vin| && Spent(u, vin[..i]) == Ok(spent)
    ensures Lookup(u, vin[i]).Ok? ==>
              Spent(u, vin[..i + 1]) == Ok(spent + [Lookup(u, vin[i]).value]) &&
              Total(spent + [Lookup(u, vin[i]).value]) == Total(spent) + Lookup(u, vin[i]).value.value
    ensures Lookup(u, vin[i]).Err? ==> InputTotal(u, vin) == Err(Lookup(u, vin[i]).error)
    ensures Requests(vin[..i + 1]) == Requests(vin[..i]) + [GetRawTransaction(vin[i].txid)]
  {
    SpentStep(u, vin, i);
    assert vin[..i + 1][..i] == vin[..i];
    if Lookup(u, vin[i]).Err? {
      SpentPrefixFails(u, vin, i + 1);
    } else {
      TotalAppend(spent, Lookup(u, vin[i]).value);
    }
  }

  /** `get_input_total`: the loop that resolves each input in turn and adds up
      the values it spends. It stops at the first input that cannot be
      resolved. `calls` records the requests posted to the node. */
  method GetInputTotal(u: Upstream, vin: seq<Outpoint>) returns (r: Result<int>, calls: seq<Request>)
    ensures r == InputTotal(u, vin)
    ensures |calls| <= |vin| && calls == Requests(vin[..|calls|])
    ensures r.Ok? ==> |calls| == |vin|
    ensures r.Err? ==> 0 < |calls| && Lookup(u, vin[|calls| - 1]) == Err(r.error)
  {
    var total := 0;
    ghost var spent: seq<Output> := [];
    calls := [];
    var i := 0;
    while i < |vin|
      invariant 0 <= i <= |vin|
      invariant Spent(u, vin[..i]) == Ok(spent)
      invariant total == Total(spent)
      invariant |calls| == i && calls == Requests(vin[..i])
    {
      var prev := Lookup(u, vin[i]);
      InputStep(u, vin, i, spent);
      calls := calls + [GetRawTransaction(vin[i].txid)];
      if prev.Err? {
        assert vin[|calls| - 1] == vin[i];
        r := Err(prev.error);
        return;
      }
      spent := spent + [prev.value];
      total := total + prev.value.value;
      i := i + 1;
    }
    assert vin[..i] == vin;
    r := Ok(total);
  }

  /** With non-negative spent values, the input total is non-negative and at
      least the contribution of every single input. */
  lemma InputTotalBounds(u: Upstream, vin: seq<Outpoint>)
    requires forall k :: 0 <= k < |vin| ==> Lookup(u, vin[k]).Ok? && Lookup(u, vin[k]).value.value >= 0
    ensures InputTotal(u, vin).value >= 0
    ensures forall k :: 0 <= k < |vin| ==> InputTotal(u, vin).value >= Lookup(u, vin[k]).value.value
  {
    var spent := Spent(u, vin).value;
    forall k | 0 <= k < |vin| ensures spent[k] == Lookup(u, vin[k]).value {
      assert Lookup(u, vin[k]) == Ok(spent[k]);
    }
    TotalBounds(spent);
  }

  /** Every input of a permutation of `a` resolves when all of `a` resolves. */
  lemma SpentPermutationResolves(u: Upstream, a: seq<Outpoint>, b: seq<Outpoint>)
    requires multiset(a) == multiset(b)
    requires Spent(u, a).Ok?
    ensures Spent(u, b).Ok?
  {
    forall k | 0 <= k < |b| ensures Lookup(u, b[k]).Ok? {
      assert b[k] in multiset(a);
    }
  }

  /** Leaving out position `j` of a sequence takes one `s[j]` out of its multiset. */
  lemma MultisetWithout<T>(s: seq<T>, j: nat)
    requires j < |s|
    ensures multiset(s[..j] + s[j + 1..]) == multiset(s) - multiset{s[j]}
  {
    assert s == s[..j] + [s[j]] + s[j + 1..];
  }

  /** Leaving out one input of a list that resolves leaves a list that resolves. */
  lemma SpentWithoutResolves(u: Upstream, b: seq<Outpoint>, j: nat)
    requires j < |b|
    requires Spent(u, b).Ok?
    ensures Spent(u, b[..j] + b[j + 1..]).Ok?
  {
    var b' := b[..j] + b[j + 1..];
    forall k | 0 <= k < |b'| ensures Lookup(u, b'[k]).Ok? {
      if k < j { assert b'[k] == b[k]; } else { assert b'[k] == b[k + 1]; }
    }
  }

  /** Leaving out the input at position `j` leaves out exactly the output it
      spends, and keeps the order of the others. */
  lemma SpentWithout(u: Upstream, b: seq<Outpoint>, j: nat)
    requires j < |b|
    requires Spent(u, b).Ok?
    ensures Spent(u, b[..j] + b[j + 1..]) == Ok(Spent(u, b).value[..j] + Spent(u, b).value[j + 1..])
  {
    var b' := b[..j] + b[j + 1..];
    SpentWithoutResolves(u, b, j);
    var sb, sb' := Spent(u, b).value, Spent(u, b').value;
    var rest := sb[..j] + sb[j + 1..];
    forall k | 0 <= k < |sb'| ensures sb'[k] == rest[k] {
      if k < j {
        SameLookup(u, b', sb', k, b, sb, k);
      } else {
        SameLookup(u, b', sb', k, b, sb, k + 1);
      }
    }
    assert sb' == rest;
  }

  /** Leaving out the input at position `j` takes the output it spends out of
      the multiset of spent outputs. */
  lemma SpentRemoveAt(u: Upstream, b: seq<Outpoint>, j: nat)
    requires j < |b|
    requires Spent(u, b).Ok?
    ensures Spent(u, b[..j] + b[j + 1..]).Ok?
    ensures multiset(Spent(u, b).value) ==
              multiset(Spent(u, b[..j] + b[j + 1..]).value) + multiset{Lookup(u, b[j]).value}
  {
    SpentWithout(u, b, j);
    var sb := Spent(u, b).value;
    MultisetWithout(sb, j);
    assert Lookup(u, b[j]) == Ok(sb[j]);
  }

  /** Two positions that hold the same input spend the same output. */
  lemma SameLookup(u: Upstream, a: seq<Outpoint>, sa: seq<Output>, i: nat,
                   b: seq<Outpoint>, sb: seq<Output>, k: nat)
    requires Spent(u, a) == Ok(sa) && Spent(u, b) == Ok(sb)
    requires i < |a| && k < |b| && a[i] == b[k]
    ensures i < |sa| && k < |sb| && sa[i] == sb[k]
  {
    assert Lookup(u, a[i]) == Ok(sa[i]);
    assert Lookup(u, b[k]) == Ok(sb[k]);
  }

  /** Resolving the same inputs in another order spends the same multiset of
      outputs. */
  lemma {:induction false} SpentPermutation(u: Upstream, a: seq<Outpoint>, b: seq<Outpoint>)
    requires multiset(a) == multiset(b)
    requires Spent(u, a).Ok?
    ensures Spent(u, b).Ok?
    ensures multiset(Spent(u, a).value) == multiset(Spent(u, b).value)
    decreases |a|
  {
    SpentPermutationResolves(u, a, b);
    if a == [] {
      assert |b| == |multiset(b)| == 0;
    } else {
      var n := |a| - 1;
      var x := a[n];
      var a' := a[..n] + a[n + 1..];
      assert a' == a[..n];
      assert x in multiset(b);
      var j :| 0 <= j < |b| && b[j] == x;
      var b' := b[..j] + b[j + 1..];
      MultisetWithout(a, n);
      MultisetWithout(b, j);
      SpentRemoveAt(u, a, n);
      SpentRemoveAt(u, b, j);
      SpentPermutation(u, a', b');
      var o := Lookup(u, x).value;
      calc {
        multiset(Spent(u, a).value);
        multiset(Spent(u, a').value) + multiset{o};
        multiset(Spent(u, b').value) + multiset{o};
        multiset(Spent(u, b).value);
      }
    }
  }

  /** The input total does not depend on the order of the inputs. */
  lemma InputTotalPermutation(u: Upstream, a: seq<Outpoint>, b: seq<Outpoint>)
    requires multiset(a) == multiset(b)
    ensures InputTotal(u, a).Ok? <==> InputTotal(u, b).Ok?
    ensures InputTotal(u, a).Ok? ==> InputTotal(u, a).value == InputTotal(u, b).value
  {
    if Spent(u, a).Ok? {
      SpentPermutation(u, a, b);
      TotalPermutation(Spent(u, a).value, Spent(u, b).value);
    } else if Spent(u, b).Ok? {
      SpentPermutation(u, b, a);
    }
  }

  // ---------------------------------------------------------------------------
  // get_input_total as written

  /** The input loop as the source writes it. An exception from `call_rpc` is
      logged and the loop carries on with whatever `result` was bound before:
      the previous input's prior transaction, or nothing at all
      (UnboundLocalError). A null or wrongly shaped result and an index past
      the end raise. `bound` is the current binding of `result`, `total` the
      running sum. Every failure is an unhandled exception, so status 500. */
  function InputTotalAsWritten(u: Upstream, vin: seq<Outpoint>, bound: Option<Option<Payload>>, total: int): (r: Result<int>)
    ensures r.Err? ==> r.error.Crash? && StatusCode(r.error) == 500
    ensures r.Err? ==> r.error.exception in {"UnboundLocalError", "AttributeError", "TypeError", "IndexError"}
    decreases |vin|
  {
    if vin == [] then Ok(total)
    else
      var fetched := CallRpc(u, "getrawtransaction", [Str(vin[0].txid), Bool(true)]);
      var result: Option<Option<Payload>> := if fetched.Ok? then Some(fetched.value) else bound;
      match result
      case None => Err(Crash("UnboundLocalError"))
      case Some(None) => Err(Crash("AttributeError"))
      case Some(Some(SmartFee(_, _))) => Err(Crash("TypeError"))
      case Some(Some(RawTx(tx))) =>
        if vin[0].vout < |tx.vout| then
          InputTotalAsWritten(u, vin[1..], result, total + tx.vout[vin[0].vout].value)
        else Err(Crash("IndexError"))
  }

  /** Resolving all inputs but the first resolves the rest of the list. */
  lemma SpentTail(u: Upstream, vin: seq<Outpoint>)
    requires vin != [] && Spent(u, vin).Ok?
    ensures Spent(u, vin[1..]) == Ok(Spent(u, vin).value[1..])
  {
    SpentWithout(u, vin, 0);
    assert vin[..0] + vin[1..] == vin[1..];
    var sp := Spent(u, vin).value;
    assert sp[..0] + sp[1..] == sp[1..];
  }

  /** One step of the source's loop over an input that resolves: it binds
      `result` to the prior transaction and adds the spent value. */
  lemma AsWrittenStep(u: Upstream, vin: seq<Outpoint>, bound: Option<Option<Payload>>, total: int)
    requires vin != [] && Lookup(u, vin[0]).Ok?
    ensures InputTotalAsWritten(u, vin, bound, total) ==
              InputTotalAsWritten(u, vin[1..], Some(Some(RawTx(FetchTx(u, vin[0].txid).value))),
                                  total + Lookup(u, vin[0]).value.value)
  {
  }

  /** When every input resolves, the source's loop and the all-or-nothing
      total agree: the defect shows only on a failed fetch. */
  lemma {:induction false} AsWrittenAgreesWhenAllResolve(u: Upstream, vin: seq<Outpoint>, bound: Option<Option<Payload>>, total: int)
    requires Spent(u, vin).Ok?
    ensures InputTotalAsWritten(u, vin, bound, total) == Ok(total + Total(Spent(u, vin).value))
    decreases |vin|
  {
    if vin != [] {
      var sp := Spent(u, vin).value;
      assert Lookup(u, vin[0]) == Ok(sp[0]);
      AsWrittenStep(u, vin, bound, total);
      SpentTail(u, vin);
      AsWrittenAgreesWhenAllResolve(u, vin[1..], Some(Some(RawTx(FetchTx(u, vin[0].txid).value))), total + sp[0].value);
      TotalHead(sp);
    }
  }

  /** A node that knows transaction "a" (one output of 5 satoshis) and gives no
      reply for anything else. */
  function NodeKnowingOnlyA(): Upstream
  {
    req => if req == GetRawTransaction("a")
           then Some(Envelope(200, NoError, Some(RawTx(Tx([], [Output(5)])))))
           else None
  }

  /** Counterexample: spending a:0 and then b:0, where the fetch of "b" fails,
      the source reuses "a" for the second input and reports 10; the
      all-or-nothing resolution fails and names b:0. */
  lemma AsWrittenReusesPreviousTx()
    ensures InputTotalAsWritten(NodeKnowingOnlyA(), [Outpoint("a", 0), Outpoint("b", 0)], None, 0) == Ok(10)
    ensures InputTotal(NodeKnowingOnlyA(), [Outpoint("a", 0), Outpoint("b", 0)]) ==
              Err(UnresolvedInput(Outpoint("b", 0), TransportError("getrawtransaction")))
  {
    var u := NodeKnowingOnlyA();
    var vin := [Outpoint("a", 0), Outpoint("b", 0)];
    assert GetRawTransaction("b") != GetRawTransaction("a") by {
      assert GetRawTransaction("b").params[0] != GetRawTransaction("a").params[0];
    }
    assert u(GetRawTransaction("a")) == Some(Envelope(200, NoError, Some(RawTx(Tx([], [Output(5)])))));
    assert u(GetRawTransaction("b")) == None;
    assert vin[1..] == [Outpoint("b", 0)];
    assert vin[1..][1..] == [];
    assert vin[..1] == [Outpoint("a", 0)];
    assert Lookup(u, vin[0]) == Ok(Output(5));
    assert Lookup(u, vin[1]) == Err(UnresolvedInput(Outpoint("b", 0), TransportError("getrawtransaction")));
  }
}
