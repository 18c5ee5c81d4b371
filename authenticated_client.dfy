/**
 * The authenticated REST client: the required-parameter check, the order and
 * transfer helpers that set fields of their parameter object and validate it
 * before any request is issued, the missing-id guards of `cancelOrder` and
 * `getOrder`, and the batch loop of `cancelAllOrders`, modelled over a given
 * sequence of batch replies.
 */
module AuthenticatedClient {
  import opened Wrappers
  import opened PublicClient

  /** A JavaScript value as stored in a parameter object. */
  datatype Value = Undefined | Null | Bool(b: bool) | Num(n: int) | Str(s: string)

  /** The properties of a parameter object. */
  type Fields = map<string, Value>

  /** `params[name]`: a property that is not there reads as `undefined`. */
  function Get(fields: Fields, name: string): Value
  {
    if name in fields then fields[name] else Undefined
  }

  predicate Defined(fields: Fields, name: string)
  {
    Get(fields, name) != Undefined
  }

  /** A parameter object the helpers receive and may update in place. */
  class Params {
    var fields: Fields

    constructor (fields: Fields)
      ensures this.fields == fields
    {
      this.fields := fields;
    }
  }

  /** Why a helper refuses to issue its request. */
  datatype ClientError =
    | MissingParam(name: string)      // thrown by the required-parameter check
    | NoOrderId(alternative: string)  // handed to the callback by the id guards

  function ErrorMessage(e: ClientError): string
  {
    match e
    case MissingParam(name) => "`opts` must include param `" + name + "`"
    case NoOrderId(alternative) => "must provide an orderID or consider " + alternative
  }

  /** A request as handed to the transport: verb, URI parts and body object. */
  datatype Request = Request(verb: string, uriParts: seq<string>, body: Option<Fields>)

  // ---------------------------------------------------------------------------
  // The required-parameter check

  /** The position of the first required name left undefined, or `|required|` when there is none. */
  function FirstMissing(fields: Fields, required: seq<string>): (k: nat)
    ensures k <= |required|
    ensures forall j :: 0 <= j < k ==> Defined(fields, required[j])
    ensures k < |required| ==> !Defined(fields, required[k])
    decreases |required|
  {
    if |required| == 0 then 0
    else if !Defined(fields, required[0]) then 0
    else 1 + FirstMissing(fields, required[1..])
  }

  /**
   * What `_requireParams` does: return true when every required name is
   * defined, and otherwise throw for the first undefined one in list order.
   */
  function RequireOutcome(fields: Fields, required: seq<string>): (r: Result<bool, ClientError>)
    ensures r.Success? <==> forall j :: 0 <= j < |required| ==> Defined(fields, required[j])
    ensures r.Success? ==> r.value
    ensures r.Failure? ==>
      exists k :: 0 <= k < |required| && r.error == MissingParam(required[k]) && !Defined(fields, required[k])
        && (forall j :: 0 <= j < k ==> Defined(fields, required[j]))
  {
    var k := FirstMissing(fields, required);
    if k == |required| then Success(true) else Failure(MissingParam(required[k]))
  }

  /** `_requireParams`: the checking loop over the required names. */
  method RequireParams(params: Params, required: seq<string>) returns (r: Result<bool, ClientError>)
    ensures r == RequireOutcome(params.fields, required)
  {
    for i := 0 to |required|
      invariant forall j :: 0 <= j < i ==> Defined(params.fields, required[j])
    {
      if Get(params.fields, required[i]) == Undefined {
        return Failure(MissingParam(required[i]));
      }
    }
    return Success(true);
  }

  /**
   * A POST of `fields` to `uriParts`, issued exactly when every required name
   * is defined; otherwise the first undefined one, in list order, is reported.
   */
  function Validated(fields: Fields, required: seq<string>, uriParts: seq<string>): (r: Result<Request, ClientError>)
    ensures r.Success? <==> forall j :: 0 <= j < |required| ==> Defined(fields, required[j])
    ensures r.Success? ==> r.value == Request("POST", uriParts, Some(fields))
    ensures r.Failure? ==>
      exists k :: 0 <= k < |required| && r.error == MissingParam(required[k]) && !Defined(fields, required[k])
        && (forall j :: 0 <= j < k ==> Defined(fields, required[j]))
  {
    match RequireOutcome(fields, required)
    case Failure(e) => Failure(e)
    case Success(_) => Success(Request("POST", uriParts, Some(fields)))
  }

  /** The validation shared by the posting helpers, then the request. */
  method PostValidated(params: Params, required: seq<string>, uriParts: seq<string>) returns (r: Result<Request, ClientError>)
    ensures r == Validated(params.fields, required, uriParts)
  {
    var checked := RequireParams(params, required);
    if checked.Failure? {
      return Failure(checked.error);
    }
    return Success(Request("POST", uriParts, Some(params.fields)));
  }

  // ---------------------------------------------------------------------------
  // Orders

  /** `size`, `side` and `product_id`, and `price` unless the type is exactly `'market'`. */
  function OrderRequired(fields: Fields): (r: seq<string>)
    ensures 3 <= |r| <= 4 && r[..3] == ["size", "side", "product_id"]
    ensures "price" in r <==> Get(fields, "type") != Str("market")
    ensures |r| == 4 ==> r[3] == "price"
  {
    if Get(fields, "type") != Str("market") then ["size", "side", "product_id", "price"]
    else ["size", "side", "product_id"]
  }

  function PlaceOrderOutcome(fields: Fields): Result<Request, ClientError>
  {
    Validated(fields, OrderRequired(fields), ["orders"])
  }

  /** `_placeOrder`. */
  method PlaceOrder(params: Params) returns (r: Result<Request, ClientError>)
    ensures r == PlaceOrderOutcome(params.fields)
  {
    var required := ["size", "side", "product_id"];
    if Get(params.fields, "type") != Str("market") {
      required := required + ["price"];
    }
    assert required == OrderRequired(params.fields);
    r := PostValidated(params, required, ["orders"]);
  }

  /**
   * An order is posted exactly when size, side and product id are defined and,
   * for any type but market, the price too; the first missing one in that
   * order is the one reported.
   */
  lemma PlaceOrderRequirements(fields: Fields)
    ensures PlaceOrderOutcome(fields).Success? <==>
      && Defined(fields, "size") && Defined(fields, "side") && Defined(fields, "product_id")
      && (Get(fields, "type") != Str("market") ==> Defined(fields, "price"))
    ensures PlaceOrderOutcome(fields).Success? ==>
      PlaceOrderOutcome(fields).value == Request("POST", ["orders"], Some(fields))
    ensures !Defined(fields, "size") ==> PlaceOrderOutcome(fields) == Failure(MissingParam("size"))
    ensures Defined(fields, "size") && !Defined(fields, "side") ==>
      PlaceOrderOutcome(fields) == Failure(MissingParam("side"))
  {
    var required := OrderRequired(fields);
    assert required[0] == "size" && required[1] == "side" && required[2] == "product_id";
    if Get(fields, "type") != Str("market") {
      assert required[3] == "price";
    }
  }

  /** `buy`: set the side, overwriting any the caller gave, then place the order. */
  method Buy(params: Params) returns (r: Result<Request, ClientError>)
    modifies params
    ensures params.fields == old(params.fields)["side" := Str("buy")]
    ensures r == PlaceOrderOutcome(params.fields)
  {
    params.fields := params.fields["side" := Str("buy")];
    r := PlaceOrder(params);
  }

  /** `sell`: set the side, overwriting any the caller gave, then place the order. */
  method Sell(params: Params) returns (r: Result<Request, ClientError>)
    modifies params
    ensures params.fields == old(params.fields)["side" := Str("sell")]
    ensures r == PlaceOrderOutcome(params.fields)
  {
    params.fields := params.fields["side" := Str("sell")];
    r := PlaceOrder(params);
  }

  /**
   * After the side is set, the side is never what is missing, the caller's own
   * side has no effect, and a posted order carries the side that was set.
   */
  lemma SideIsForced(fields: Fields, callerSide: Value, side: string)
    ensures var r := PlaceOrderOutcome(fields["side" := Str(side)]);
      && r == PlaceOrderOutcome(fields["side" := callerSide]["side" := Str(side)])
      && (r.Failure? ==> r.error != MissingParam("side"))
      && (r.Success? ==> r.value.body.value["side"] == Str(side))
  {
    assert fields["side" := callerSide]["side" := Str(side)] == fields["side" := Str(side)];
    var f := fields["side" := Str(side)];
    var r := PlaceOrderOutcome(f);
    if r.Failure? {
      var k :| 0 <= k < |OrderRequired(f)| && r.error == MissingParam(OrderRequired(f)[k])
        && !Defined(f, OrderRequired(f)[k]);
      assert OrderRequired(f)[k] != "side";
    }
  }

  // ---------------------------------------------------------------------------
  // Transfers and funding

  const TransferRequired: seq<string> := ["type", "amount", "coinbase_account_id"]

  /** `_transferFunds`. */
  method TransferFunds(params: Params) returns (r: Result<Request, ClientError>)
    ensures r == Validated(params.fields, TransferRequired, ["transfers"])
  {
    r := PostValidated(params, TransferRequired, ["transfers"]);
  }

  /** `deposit`: set the type, overwriting any the caller gave, then transfer. */
  method Deposit(params: Params) returns (r: Result<Request, ClientError>)
    modifies params
    ensures params.fields == old(params.fields)["type" := Str("deposit")]
    ensures r == Validated(params.fields, TransferRequired, ["transfers"])
  {
    params.fields := params.fields["type" := Str("deposit")];
    r := TransferFunds(params);
  }

  /** `withdraw`: set the type, overwriting any the caller gave, then transfer. */
  method Withdraw(params: Params) returns (r: Result<Request, ClientError>)
    modifies params
    ensures params.fields == old(params.fields)["type" := Str("withdraw")]
    ensures r == Validated(params.fields, TransferRequired, ["transfers"])
  {
    params.fields := params.fields["type" := Str("withdraw")];
    r := TransferFunds(params);
  }

  /**
   * Once the type is set, a transfer is posted exactly when the amount and the
   * account id are defined, and it carries the type that was set.
   */
  lemma TransferRequirements(fields: Fields, kind: string)
    ensures var r := Validated(fields["type" := Str(kind)], TransferRequired, ["transfers"]);
      && (r.Success? <==> Defined(fields, "amount") && Defined(fields, "coinbase_account_id"))
      && (r.Success? ==> r.value.body.value["type"] == Str(kind))
      && (!Defined(fields, "amount") ==> r == Failure(MissingParam("amount")))
  {
    var f := fields["type" := Str(kind)];
    assert Get(f, "amount") == Get(fields, "amount");
    assert Get(f, "coinbase_account_id") == Get(fields, "coinbase_account_id");
    assert TransferRequired[0] == "type" && TransferRequired[1] == "amount"
      && TransferRequired[2] == "coinbase_account_id";
  }

  /** `repay`: requires `amount` and `currency`. */
  method Repay(params: Params) returns (r: Result<Request, ClientError>)
    ensures r == Validated(params.fields, ["amount", "currency"], ["funding/repay"])
  {
    r := PostValidated(params, ["amount", "currency"], ["funding/repay"]);
  }

  /** `marginTransfer`: requires `margin_profile_id`, `type`, `currency` and `amount`. */
  method MarginTransfer(params: Params) returns (r: Result<Request, ClientError>)
    ensures r == Validated(params.fields, ["margin_profile_id", "type", "currency", "amount"], ["profiles/margin-transfer"])
  {
    r := PostValidated(params, ["margin_profile_id", "type", "currency", "amount"], ["profiles/margin-transfer"]);
  }

  /** `closePosition`: requires `repay_only`. */
  method ClosePosition(params: Params) returns (r: Result<Request, ClientError>)
    ensures r == Validated(params.fields, ["repay_only"], ["position/close"])
  {
    r := PostValidated(params, ["repay_only"], ["position/close"]);
  }

  // ---------------------------------------------------------------------------
  // The order id guards

  /**
   * `cancelOrder`; `None` stands for a call whose only argument is the
   * callback, which then receives the error and no request is issued.
   */
  function CancelOrder(orderId: Option<string>): (r: Result<Request, ClientError>)
    ensures r.Success? <==> orderId.Some?
    ensures r.Failure? ==> ErrorMessage(r.error) == "must provide an orderID or consider cancelOrders"
    ensures r.Success? ==> r.value.verb == "DELETE" && MakeRelativeUri(r.value.uriParts) == "/orders/" + orderId.value
  {
    match orderId
    case None => Failure(NoOrderId("cancelOrders"))
    case Some(id) =>
      assert Join(["orders", id], "/") == "orders" + "/" + Join([id], "/") by {
        assert ["orders", id][1..] == [id];
      }
      Success(Request("DELETE", ["orders", id], None))
  }

  /** `getOrder`, with the same guard as `cancelOrder`. */
  function GetOrder(orderId: Option<string>): (r: Result<Request, ClientError>)
    ensures r.Success? <==> orderId.Some?
    ensures r.Failure? ==> ErrorMessage(r.error) == "must provide an orderID or consider getOrders"
    ensures r.Success? ==> r.value.verb == "GET" && MakeRelativeUri(r.value.uriParts) == "/orders/" + orderId.value
  {
    match orderId
    case None => Failure(NoOrderId("getOrders"))
    case Some(id) =>
      assert Join(["orders", id], "/") == "orders" + "/" + Join([id], "/") by {
        assert ["orders", id][1..] == [id];
      }
      Success(Request("GET", ["orders", id], None))
  }

  // ---------------------------------------------------------------------------
  // cancelAllOrders

  /** One reply to `DELETE /orders`: a transport error, or a status and the parsed list of deleted ids. */
  datatype BatchReply = BatchError(err: string) | Batch(statusCode: int, data: Option<seq<string>>)

  /** What the final callback receives, and whether it has been called yet. */
  datatype CancelAllResult = CancelAllResult(error: Option<string>, response: Option<int>, deleted: seq<string>, finished: bool)

  const CancelAllFailure: string := "Failed to cancel all orders"

  /** A reply whose batch is recorded: status 200 and a list. */
  predicate Accepted(b: BatchReply)
  {
    b.Batch? && b.statusCode == 200 && b.data.Some?
  }

  /** A reply after which another batch is requested: recorded and non-empty. */
  predicate Continues(b: BatchReply)
  {
    Accepted(b) && |b.data.value| > 0
  }

  /** The loop from a state with `total` deleted so far and the last recorded `response`. */
  function CancelAllFrom(replies: seq<BatchReply>, total: seq<string>, response: Option<int>): (r: CancelAllResult)
    ensures |total| <= |r.deleted| && r.deleted[..|total|] == total
    ensures r.error.Some? ==> r.finished
    ensures r.finished ==> |replies| > 0
    ensures r.response == response || r.response == Some(200)
    decreases |replies|
  {
    if |replies| == 0 then CancelAllResult(None, response, total, false)
    else match replies[0]
      case BatchError(err) => CancelAllResult(Some(err), response, total, true)
      case Batch(code, data) =>
        if code != 200 || data.None? then CancelAllResult(Some(CancelAllFailure), response, total, true)
        else if |data.value| > 0 then CancelAllFrom(replies[1..], total + data.value, Some(code))
        else CancelAllResult(None, Some(code), total + data.value, true)
  }

  function CancelAll(replies: seq<BatchReply>): (r: CancelAllResult)
    ensures r.response.Some? ==> r.response == Some(200)
    ensures r.error.Some? ==> r.finished
    ensures |replies| == 0 ==> r == CancelAllResult(None, None, [], false)
  {
    CancelAllFrom(replies, [], None)
  }

  /** `cancelAllOrders`: the do-while loop, one reply per iteration. */
  method CancelAllOrders(replies: seq<BatchReply>) returns (r: CancelAllResult)
    ensures r == CancelAll(replies)
  {
    var current: seq<string> := [];
    var total: seq<string> := [];
    var query := true;
    var response: Option<int> := None;
    var i := 0;
    while true
      invariant 0 <= i <= |replies| && query
      invariant CancelAllFrom(replies[i..], total, response) == CancelAll(replies)
      decreases |replies| - i
    {
      if i == |replies| {
        return CancelAllResult(None, response, total, false);
      }
      match replies[i] {
        case BatchError(err) =>
          return CancelAllResult(Some(err), response, total, true);
        case Batch(code, data) =>
          if code != 200 || data.None? {
            query := false;
            return CancelAllResult(Some(CancelAllFailure), response, total, true);
          }
          current := data.value;
          total := total + current;
          response := Some(code);
      }
      assert replies[i..][1..] == replies[i + 1..];
      i := i + 1;
      if !(|current| > 0 && query) {
        return CancelAllResult(None, response, total, true);
      }
    }
  }

  /** The position of the first reply that does not continue the loop, or `|replies|`. */
  function StopAt(replies: seq<BatchReply>): (k: nat)
    ensures k <= |replies|
    ensures forall j :: 0 <= j < k ==> Continues(replies[j])
    ensures k < |replies| ==> !Continues(replies[k])
    decreases |replies|
  {
    if |replies| == 0 || !Continues(replies[0]) then 0 else 1 + StopAt(replies[1..])
  }

  /** The deleted ids of the recorded replies, concatenated in order. */
  function Deleted(replies: seq<BatchReply>): seq<string>
    decreases |replies|
  {
    if |replies| == 0 then []
    else (if Accepted(replies[0]) then replies[0].data.value else []) + Deleted(replies[1..])
  }

  lemma {:induction false} CancelAllFromSummary(replies: seq<BatchReply>, total: seq<string>, response: Option<int>)
    ensures var k := StopAt(replies);
      var r := CancelAllFrom(replies, total, response);
      && r.deleted == total + Deleted(replies[..k])
      && (r.finished <==> k < |replies|)
      && (r.error.Some? <==> k < |replies| && !Accepted(replies[k]))
      && (k < |replies| && replies[k].BatchError? ==> r.error == Some(replies[k].err))
      && (k < |replies| && replies[k].Batch? && !Accepted(replies[k]) ==> r.error == Some(CancelAllFailure))
      && r.response == (if k < |replies| && Accepted(replies[k]) then Some(replies[k].statusCode)
                        else if k > 0 then Some(replies[k - 1].statusCode) else response)
    decreases |replies|
  {
    var k := StopAt(replies);
    if k == 0 {
      assert replies[..0] == [];
      if |replies| > 0 && Accepted(replies[0]) {
        assert total + replies[0].data.value == total;
      }
    } else {
      var b := replies[0];
      CancelAllFromSummary(replies[1..], total + b.data.value, Some(b.statusCode));
      assert StopAt(replies[1..]) == k - 1;
      assert replies[..k][1..] == replies[1..][..k - 1];
      assert Deleted(replies[..k]) == b.data.value + Deleted(replies[1..][..k - 1]);
    }
  }

  /**
   * The ids handed to the final callback are the in-order concatenation of
   * every recorded batch; the loop goes on exactly while batches are non-empty
   * and accepted, and it reports an error exactly when it stops on a transport
   * error, a status other than 200 or a missing list.
   */
  lemma CancelAllSummary(replies: seq<BatchReply>)
    ensures var k := StopAt(replies);
      var r := CancelAll(replies);
      && r.deleted == Deleted(replies[..k])
      && (r.finished <==> k < |replies|)
      && (r.error.Some? <==> k < |replies| && !Accepted(replies[k]))
      && (k < |replies| && replies[k].BatchError? ==> r.error == Some(replies[k].err))
      && (k < |replies| && replies[k].Batch? && !Accepted(replies[k]) ==> r.error == Some(CancelAllFailure))
      && r.response == (if k < |replies| && Accepted(replies[k]) then Some(replies[k].statusCode)
                        else if k > 0 then Some(replies[k - 1].statusCode) else None)
  {
    CancelAllFromSummary(replies, [], None);
    assert [] + Deleted(replies[..StopAt(replies)]) == Deleted(replies[..StopAt(replies)]);
  }
}
