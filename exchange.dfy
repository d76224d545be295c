/**
 * The exchange client (src/exchange.py): the collision-proof nonce
 * generator, the order-response check and the five-minute clock resync in
 * `create_order`. Network calls are not modelled; what they return is an
 * input (`Quote`, `OrderOutcome`, `SyncOutcome`, `Response`).
 */
module Exchange {
  import opened Wrappers
  import opened Json

  /** One field of `fetch_ticker(symbol)` (`bid`, `ask` or `last`), or the error the call raised. */
  datatype Quote = Quote(price: real) | QuoteError(text: string)

  /** What a `create_limit_order` / `create_market_order` call did. */
  datatype OrderOutcome = Placed(id: string) | InvalidOrder(text: string) | OrderError(text: string)

  // ---------------------------------------------------------------------
  // Nonces
  // ---------------------------------------------------------------------

  /** One step of the generator: `last = max(last + 1, now)`. */
  function NextNonce(last: int, clock: int): (n: int)
    ensures n > last && n >= clock
    ensures n == last + 1 || n == clock
  {
    if last + 1 > clock then last + 1 else clock
  }

  /** The nonces the generator yields for successive clock readings (milliseconds). */
  function NonceRun(last: int, clocks: seq<int>): (ns: seq<int>)
    ensures |ns| == |clocks|
    ensures forall i :: 0 <= i < |ns| ==> ns[i] > last && ns[i] >= clocks[i]
    ensures forall i, j :: 0 <= i < j < |ns| ==> ns[i] < ns[j]
    decreases |clocks|
  {
    if clocks == [] then []
    else
      var n := NextNonce(last, clocks[0]);
      [n] + NonceRun(n, clocks[1..])
  }

  /** `_nonce_generator`: the generator's local `last_nonce` is the field. */
  class NonceGenerator {
    var last: int

    /** The generator's first clock reading becomes `last_nonce`. */
    constructor (clock: int)
      ensures last == clock
    {
      last := clock;
    }

    /** `next(gen)` with the clock reading `clock`. */
    method Next(clock: int) returns (n: int)
      modifies this
      ensures n > old(last) && n >= clock
      ensures n == NextNonce(old(last), clock) && last == n
    {
      last := if last + 1 > clock then last + 1 else clock;
      n := last;
    }
  }

  // ---------------------------------------------------------------------
  // Order responses
  // ---------------------------------------------------------------------

  const RequiredFields: seq<string> := ["id", "status", "filled"]

  /** The ValueError `_validate_order_response` raises. */
  datatype ResponseError = MissingField(name: string) | UnknownStatus(status: Value)

  /** Index of the first field of `fields` missing from `resp` (`|fields|` when none is). */
  function FirstMissing(fields: seq<string>, resp: Object): (i: nat)
    ensures i <= |fields|
    ensures forall k :: 0 <= k < i ==> fields[k] in resp
    ensures i < |fields| ==> fields[i] !in resp
  {
    if fields == [] || fields[0] !in resp then 0
    else 1 + FirstMissing(fields[1..], resp)
  }

  /** `_validate_order_response`: the first missing required field, then the status. */
  function ValidateOrderResponse(resp: Object): (r: Outcome<ResponseError>)
    ensures "id" !in resp ==> r == Fail(MissingField("id"))
    ensures "id" in resp && "status" !in resp ==> r == Fail(MissingField("status"))
    ensures "id" in resp && "status" in resp && "filled" !in resp ==> r == Fail(MissingField("filled"))
    ensures "id" in resp && "status" in resp && "filled" in resp
      && resp["status"] != Str("closed") && resp["status"] != Str("open")
      ==> r == Fail(UnknownStatus(resp["status"]))
    ensures r.Pass? <==> ("id" in resp && "status" in resp && "filled" in resp
      && (resp["status"] == Str("closed") || resp["status"] == Str("open")))
  {
    var i := FirstMissing(RequiredFields, resp);
    assert RequiredFields[0] == "id" && RequiredFields[1] == "status" && RequiredFields[2] == "filled";
    if i < |RequiredFields| then Fail(MissingField(RequiredFields[i]))
    else if resp["status"] != Str("closed") && resp["status"] != Str("open") then Fail(UnknownStatus(resp["status"]))
    else Pass
  }

  // ---------------------------------------------------------------------
  // create_order
  // ---------------------------------------------------------------------

  /** Seconds between forced clock synchronisations. */
  const ResyncInterval: real := 300.0

  predicate ResyncDue(lastSync: real, now: real) {
    now - lastSync > ResyncInterval
  }

  /** `_force_time_sync` either succeeds, after which the clock reads `at`, or raises. */
  datatype SyncOutcome = Synced(at: real) | SyncFailed(text: string)

  /** The arguments of `client.create_order` (`params` left out). */
  datatype OrderRequest = OrderRequest(symbol: string, orderType: string, side: string, amount: real, price: real)

  /** What the exchange library's `create_order` did. */
  datatype Response = Responded(body: Object) | Raised(failure: OrderFailure)

  /** The exceptions `create_order` lets through. */
  datatype OrderFailure =
    | InsufficientFunds(text: string)
    | NetworkError(text: string)
    | Unexpected(text: string)
    | BadResponse(error: ResponseError)
    | SyncError(text: string)     // whatever `fetch_time` raised during the resync

  datatype OrderResult = Accepted(order: Object) | Rejected(failure: OrderFailure)

  /** The outcome of the library call after `_validate_order_response`. */
  function CheckResponse(response: Response): (r: OrderResult)
    ensures r.Accepted? <==> response.Responded? && ValidateOrderResponse(response.body).Pass?
    ensures r.Accepted? ==> r.order == response.body
  {
    match response
    case Raised(f) => Rejected(f)
    case Responded(body) =>
      match ValidateOrderResponse(body)
      case Pass => Accepted(body)
      case Fail(e) => Rejected(BadResponse(e))
  }

  class ExchangeClient {
    /** `_last_sync`, in seconds. */
    var lastSync: real
    /** The requests handed to the exchange library, oldest first. */
    var sent: seq<OrderRequest>
    /** How many times `_force_time_sync` was called by `create_order`. */
    var syncs: nat

    constructor ()
      ensures lastSync == 0.0 && sent == [] && syncs == 0
    {
      lastSync := 0.0;
      sent := [];
      syncs := 0;
    }

    /**
     * `create_order` at clock `now`: resynchronise when more than 300 s
     * have passed since the last sync, then send the order and check the reply.
     */
    method CreateOrder(req: OrderRequest, now: real, sync: SyncOutcome, response: Response)
      returns (r: OrderResult)
      modifies this
      ensures syncs == old(syncs) + (if ResyncDue(old(lastSync), now) then 1 else 0)
      ensures !ResyncDue(old(lastSync), now) ==> lastSync == old(lastSync)
      ensures ResyncDue(old(lastSync), now) ==> lastSync == (if sync.Synced? then sync.at else old(lastSync))
      ensures ResyncDue(old(lastSync), now) && sync.SyncFailed?
        ==> r == Rejected(SyncError(sync.text)) && sent == old(sent)
      ensures !(ResyncDue(old(lastSync), now) && sync.SyncFailed?)
        ==> r == CheckResponse(response) && sent == old(sent) + [req]
    {
      if now - lastSync > ResyncInterval {
        syncs := syncs + 1;
        match sync {
          case SyncFailed(text) =>
            return Rejected(SyncError(text));
          case Synced(at) =>
            lastSync := at;
        }
      }
      sent := sent + [req];
      r := CheckResponse(response);
    }
  }
}
