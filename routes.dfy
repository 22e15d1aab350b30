/**
 * The API route handlers (src/app/api/transactions/route.js,
 * src/app/api/analytics/stats/route.js,
 * src/app/api/analytics/monthly-expenses/route.js).
 *
 * Each route file picks its backend once, when the module loads: the
 * database service if `MONGODB_URI` is set and importing that service does
 * not throw, the in-memory fallback service otherwise. A handler is a
 * function of that choice and of what each service call it may make returns
 * or throws, so it cannot change the choice. The calls a handler makes are
 * listed in the result, in order.
 */
module Routes {
  import opened Wrappers
  import opened Transactions
  import opened Store
  import opened FallbackService

  /** What an awaited service call did: returned a value, or threw. */
  datatype Outcome<T> = Returned(value: T) | Threw

  /** The backend that answers: the database service or the in-memory fallback. */
  datatype Backend = Database | InMemory

  /** A service call a handler made: to the selected service, or the retry on the fallback service. */
  datatype Call = Selected | FallbackRetry

  /** The JSON body of a response: the data, or `{ error: message }`. */
  datatype Payload<T> = Json(value: T) | Error(message: string)

  /** Status, body, and whether `X-Using-Fallback: true` is set. */
  datatype Response<T> = Response(status: nat, payload: Payload<T>, fallbackHeader: bool)

  /** A response together with the service calls made to produce it. */
  datatype Handled<T> = Handled(response: Response<T>, calls: seq<Call>)

  /** The load-time choice: `isUsingFallback` is true exactly when the in-memory service was taken. */
  function SelectBackend(mongoUriSet: bool, mongoImportThrows: bool): (b: Backend)
    ensures b == InMemory <==> !mongoUriSet || mongoImportThrows
  {
    if mongoUriSet then
      if mongoImportThrows then InMemory else Database
    else
      InMemory  // the source throws 'No MongoDB URI provided' and lands in the same catch
  }

  /**
   * The shape shared by the three `GET` handlers: call the selected service;
   * on a throw in database mode, call the fallback service once and mark the
   * response; otherwise answer 500 with `failure`.
   */
  function GetWithFallback<T>(usingFallback: bool, selected: Outcome<T>, retry: Outcome<T>, failure: string)
    : (h: Handled<T>)
  {
    match selected
    case Returned(v) => Handled(Response(200, Json(v), usingFallback), [Selected])
    case Threw =>
      if !usingFallback then
        match retry
        case Returned(v) => Handled(Response(200, Json(v), true), [Selected, FallbackRetry])
        case Threw => Handled(Response(500, Error(failure), false), [Selected, FallbackRetry])
      else
        Handled(Response(500, Error(failure), false), [Selected])
  }

  /**
   * The decision a `GET` handler makes. The selected service is called
   * first; the fallback service is called once more, and only after a throw
   * in database mode. Success carries the answering service's data, with the
   * header exactly when the in-memory service answered: in fallback mode, or
   * on the retry. Every other outcome ends in 500 with `failure` and no header.
   */
  lemma GetDecision<T>(usingFallback: bool, selected: Outcome<T>, retry: Outcome<T>, failure: string)
    ensures var h := GetWithFallback(usingFallback, selected, retry, failure);
      h.calls == (if selected.Threw? && !usingFallback then [Selected, FallbackRetry] else [Selected]) &&
      (h.response.status == 200 <==> selected.Returned? || (!usingFallback && retry.Returned?)) &&
      (h.response.status == 200 ==>
         h.response.payload == Json(if selected.Returned? then selected.value else retry.value) &&
         (h.response.fallbackHeader <==> usingFallback || selected.Threw?)) &&
      (h.response.status != 200 ==>
         h.response == Response(500, Error(failure), false))
  {
  }

  /** `GET /api/transactions`. */
  function GetTransactions(usingFallback: bool, selected: Outcome<seq<Transaction>>, retry: Outcome<seq<Transaction>>)
    : (h: Handled<seq<Transaction>>)
    ensures h.calls == (if selected.Threw? && !usingFallback then [Selected, FallbackRetry] else [Selected])
    ensures h.response.status == 200 <==> selected.Returned? || (!usingFallback && retry.Returned?)
    ensures h.response.status == 200 ==>
              h.response.payload == Json(if selected.Returned? then selected.value else retry.value) &&
              (h.response.fallbackHeader <==> usingFallback || selected.Threw?)
    ensures h.response.status != 200 ==> h.response == Response(500, Error("Failed to fetch transactions"), false)
  {
    GetWithFallback(usingFallback, selected, retry, "Failed to fetch transactions")
  }

  /** `GET /api/analytics/stats`. */
  function GetStats(usingFallback: bool, selected: Outcome<Stats>, retry: Outcome<Stats>) : (h: Handled<Stats>)
    ensures h.calls == (if selected.Threw? && !usingFallback then [Selected, FallbackRetry] else [Selected])
    ensures h.response.status == 200 <==> selected.Returned? || (!usingFallback && retry.Returned?)
    ensures h.response.status == 200 ==>
              h.response.payload == Json(if selected.Returned? then selected.value else retry.value) &&
              (h.response.fallbackHeader <==> usingFallback || selected.Threw?)
    ensures h.response.status != 200 ==> h.response == Response(500, Error("Failed to fetch transaction statistics"), false)
  {
    GetWithFallback(usingFallback, selected, retry, "Failed to fetch transaction statistics")
  }

  /** `GET /api/analytics/monthly-expenses`. */
  function GetMonthlyExpenses(usingFallback: bool, selected: Outcome<seq<MonthTotal>>, retry: Outcome<seq<MonthTotal>>)
    : (h: Handled<seq<MonthTotal>>)
    ensures h.calls == (if selected.Threw? && !usingFallback then [Selected, FallbackRetry] else [Selected])
    ensures h.response.status == 200 <==> selected.Returned? || (!usingFallback && retry.Returned?)
    ensures h.response.status == 200 ==>
              h.response.payload == Json(if selected.Returned? then selected.value else retry.value) &&
              (h.response.fallbackHeader <==> usingFallback || selected.Threw?)
    ensures h.response.status != 200 ==> h.response == Response(500, Error("Failed to fetch monthly expenses"), false)
  {
    GetWithFallback(usingFallback, selected, retry, "Failed to fetch monthly expenses")
  }

  /** A JSON value as the request body may hold it; numbers are whole cents. */
  datatype JsValue = JsNumber(n: int) | JsString(s: string) | JsBool(b: bool) | JsNull | JsObject

  /** JavaScript truthiness of a body field; a missing field is `undefined`. */
  predicate Truthy(v: Option<JsValue>)
  {
    match v
    case None => false
    case Some(JsNumber(n)) => n != 0
    case Some(JsString(s)) => s != ""
    case Some(JsBool(b)) => b
    case Some(JsNull) => false
    case Some(JsObject) => true
  }

  /** The fields of a `POST` body the handler looks at. */
  datatype PostBody = PostBody(amount: Option<JsValue>, description: Option<JsValue>, category: Option<JsValue>)

  /** `!body.amount || !body.description || !body.category` is false. */
  predicate HasRequiredFields(body: PostBody)
  {
    Truthy(body.amount) && Truthy(body.description) && Truthy(body.category)
  }

  /**
   * `POST /api/transactions`. `body` is what `request.json()` gave,
   * `create` what the selected service's `createTransaction` did, and
   * `retry` what the fallback attempt did (re-reading the body, then the
   * fallback service's `createTransaction`).
   */
  function PostTransaction(usingFallback: bool, body: Outcome<PostBody>, create: Outcome<Transaction>,
                           retry: Outcome<Transaction>): (h: Handled<Transaction>)
    ensures body.Returned? && !HasRequiredFields(body.value) ==>
              h == Handled(Response(400, Error("Missing required fields"), false), [])
    ensures body.Returned? && HasRequiredFields(body.value) && create.Returned? ==>
              h == Handled(Response(201, Json(create.value), false), [Selected])
    ensures h.response.fallbackHeader <==> h.response.status == 201 && FallbackRetry in h.calls
    ensures FallbackRetry in h.calls <==>
              !usingFallback && (body.Threw? || (HasRequiredFields(body.value) && create.Threw?))
    ensures h.calls in {[], [Selected], [FallbackRetry], [Selected, FallbackRetry]}
    ensures Selected in h.calls <==> body.Returned? && HasRequiredFields(body.value)
    ensures FallbackRetry in h.calls && retry.Returned? ==> h.response == Response(201, Json(retry.value), true)
    ensures h.response.status == 201 && FallbackRetry in h.calls ==>
              retry.Returned? && h.response.payload == Json(retry.value)
    ensures h.response.status == 500 <==>
              (body.Threw? || (HasRequiredFields(body.value) && create.Threw?)) && (usingFallback || retry.Threw?)
    ensures h.response.status == 500 ==> h.response == Response(500, Error("Failed to create transaction"), false)
  {
    if body.Returned? && !HasRequiredFields(body.value) then
      Handled(Response(400, Error("Missing required fields"), false), [])
    else if body.Returned? && create.Returned? then
      Handled(Response(201, Json(create.value), false), [Selected])
    else
      // a throw from `request.json()` or from the selected service
      var tried: seq<Call> := if body.Threw? then [] else [Selected];
      if !usingFallback then
        var calls := tried + [FallbackRetry];
        assert calls == if body.Threw? then [FallbackRetry] else [Selected, FallbackRetry];
        match retry
        case Returned(t) => Handled(Response(201, Json(t), true), calls)
        case Threw => Handled(Response(500, Error("Failed to create transaction"), false), calls)
      else
        Handled(Response(500, Error("Failed to create transaction"), false), tried)
  }

  /** A zero amount is falsy: the `POST` is refused before any service is called. */
  lemma PostRejectsZeroAmount(usingFallback: bool, description: JsValue, category: JsValue,
                              create: Outcome<Transaction>, retry: Outcome<Transaction>)
    ensures var body := PostBody(Some(JsNumber(0)), Some(description), Some(category));
      PostTransaction(usingFallback, Returned(body), create, retry).response.status == 400
  {
  }

  /** The selected backend, read from the module-level flag, as each route file holds it. */
  class RouteModule {
    const isUsingFallback: bool

    /** Module load: the try/catch around the database import. */
    constructor (mongoUriSet: bool, mongoImportThrows: bool)
      ensures isUsingFallback <==> SelectBackend(mongoUriSet, mongoImportThrows) == InMemory
    {
      isUsingFallback := SelectBackend(mongoUriSet, mongoImportThrows) == InMemory;
    }
  }
}
