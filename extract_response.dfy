/**
 * How both extraction clients turn the service's HTTP answer into `{success, data?, error?}`
 * (`extractTutorial` and `extractRecipe` share this code word for word).
 */
module ExtractResponse {
  import opened Wrappers
  import opened JsValue
  import Decimal

  /** What the service answered: `response.ok`, `response.status`, and the body (None: not JSON). */
  datatype HttpResponse = HttpResponse(ok: bool, status: nat, body: Option<JsonValue>)

  /** `{success: true, data}` or `{success: false, error}`. */
  datatype Response<T> = Extracted(data: T) | Failed(error: JsonValue)

  /** `` `API error: ${response.status}` `` */
  function ApiError(status: nat): JsonValue {
    Str("API error: " + Decimal.NatToString(status))
  }

  /** `data.data || data`: the extraction payload inside a successful body. */
  function Payload(data: JsonValue): JsonValue {
    Or(Field(data, "data"), data)
  }

  /** The catch block: a thrown `Error` becomes `{success: false, error: error.message}`. */
  function Thrown<T>(f: Fault, describe: Fault -> string): Response<T> {
    Failed(Str(describe(f)))
  }

  /**
   * The response handling around a normaliser: `describe` gives the message the JavaScript engine
   * puts in the `Error` it throws for a fault.
   */
  function Respond<T>(resp: HttpResponse, normalize: JsonValue -> Result<T, Fault>, describe: Fault -> string): (r: Response<T>)
    ensures !resp.ok ==> r.Failed?
    ensures !resp.ok && (resp.body.None? || !Nullish(resp.body.value)) ==>
      var bodyError := Field(resp.body.GetOr(Obj(map[])), "error");
      (Truthy(bodyError) ==> r.error == bodyError) && (!Truthy(bodyError) ==> r.error == ApiError(resp.status))
    ensures resp.ok && resp.body.Some? && !Nullish(resp.body.value) && Truthy(Field(resp.body.value, "error")) ==>
      r == Failed(Field(resp.body.value, "error"))
    ensures r.Extracted? <==>
      && resp.ok && resp.body.Some? && !Nullish(resp.body.value)
      && !Truthy(Field(resp.body.value, "error"))
      && normalize(Payload(resp.body.value)).Ok?
    ensures r.Extracted? ==> normalize(Payload(resp.body.value)) == Ok(r.data)
  {
    if !resp.ok then
      // `response.json().catch(() => ({}))`
      var errorData := resp.body.GetOr(Obj(map[]));
      match Get(errorData, "error")
      case Err(f) => Thrown(f, describe)
      case Ok(e) => Failed(Or(e, ApiError(resp.status)))
    else
      match resp.body
      case None => Thrown(InvalidJson, describe)
      case Some(data) =>
        match Get(data, "error")
        case Err(f) => Thrown(f, describe)
        case Ok(e) =>
          if Truthy(e) then Failed(e)
          else
            match normalize(Payload(data))
            case Err(f) => Thrown(f, describe)
            case Ok(t) => Extracted(t)
  }

  /** The message of a failed call names the HTTP status, and the status can be read back from it. */
  lemma ApiErrorNamesStatus(status: nat)
    ensures var msg := ApiError(status).s;
      |msg| > 11 && msg[..11] == "API error: "
      && Decimal.AllDigits(msg[11..]) && Decimal.DigitsValue(msg[11..]) == status
  {
    var msg := ApiError(status).s;
    assert msg[11..] == Decimal.NatToString(status);
    Decimal.NatToStringRoundTrip(status);
  }
}
