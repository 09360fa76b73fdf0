/** What one middleware step can do, the request it works on, the error
    middleware, the id check, and how a chain of steps runs. */
module Middleware {
  import opened Values
  import opened Directives

  /** An error passed to `next`: an Error object, whose `status` may be
      missing, or a bare number, as in `next(500, '...')`. */
  datatype Error = Err(status: Option<int>, message: string) | Bare(code: int)

  /** `err.status` is truthy. */
  predicate HasStatus(err: Error) {
    err.Err? && err.status.Some? && err.status.value != 0
  }

  const DefaultErrorMessage := "Oh, oh.... there is a problem bargain with the dababase, try again!"

  /** `createError(code, message)`: an Error object carrying a status. */
  function CreateError(code: int := 500, message: string := DefaultErrorMessage): (e: Error)
    ensures e.Err? && e.message == message
    ensures HasStatus(e) <==> code != 0
  {
    Err(Some(code), message)
  }

  /** The result of one middleware step. `Fail(s, m)` is
      `next(createError(s, m))`, `Forward(e)` is `next(e)` with an error
      made elsewhere, `Respond` is `res.status(s).json(body)`. */
  datatype Outcome =
    | Continue
    | Fail(status: int, message: string)
    | Forward(error: Error)
    | Respond(status: int, body: Json)

  /** The error a failing step hands to `next`. */
  function Raised(o: Outcome): Error
    requires o.Fail? || o.Forward?
  {
    if o.Fail? then CreateError(o.status, o.message) else o.error
  }

  function ErrorBody(message: string): Json {
    Single("errorMessage", JStr(message))
  }

  /** handleError: answer with the error's status and `{errorMessage}` when
      the status is set, otherwise hand the error on; in both cases `next()`
      is then called once more. */
  function HandleError(err: Error): (steps: seq<Outcome>)
    ensures |steps| == 2 && steps[1] == Continue
    ensures steps[0].Respond? <==> HasStatus(err)
    ensures HasStatus(err) ==> steps[0] == Respond(err.status.value, ErrorBody(err.message))
    ensures !HasStatus(err) ==> steps[0] == Forward(err)
  {
    var first :=
      if HasStatus(err) then Respond(err.status.value, ErrorBody(err.message))
      else Forward(err);
    [first, Continue]
  }

  /** Every error made by createError with a non-zero code is answered
      with that code and message. */
  lemma CreatedErrorsAreAnswered(code: int, message: string)
    requires code != 0
    ensures HandleError(CreateError(code, message))[0] == Respond(code, ErrorBody(message))
  {
    assert HasStatus(CreateError(code, message));
  }

  /** The settled reply of a persistence call (a promise or a callback). */
  datatype Reply = Resolved(value: Json) | Rejected(error: Error)

  /** isIdValid: with no id, continue without a lookup; otherwise a lookup
      that finds nothing fails with 404, one that fails hands its error on
      unchanged, and one that finds a document continues. */
  function IdCheck(id: Json, lookup: Reply, notFound: string): (o: Outcome)
    ensures !Truthy(id) ==> o == Continue
    ensures Truthy(id) && lookup.Rejected? ==> o == Forward(lookup.error)
    ensures Truthy(id) && lookup.Resolved? ==>
              o == (if Truthy(lookup.value) then Continue else Fail(404, notFound))
  {
    if !Truthy(id) then Continue
    else
      match lookup
      case Rejected(e) => Forward(e)
      case Resolved(found) => if Truthy(found) then Continue else Fail(404, notFound)
  }

  /** A persistence call issued while serving a request. */
  datatype Call =
    | FindById(id: Json)
    | Find(query: Query)
    | Validate(doc: map<string, Json>)
    | Save(doc: map<string, Json>)
    | Update(id: Json, patch: map<string, Json>)
    | Remove(id: Json)

  /** The per-request scratch object `req`: `req.method`, `params.id`, the body,
      the slots the steps write for later steps, and the persistence calls
      issued so far. An unset slot is undefined. */
  datatype Request = Request(
    verb: string,
    id: Json,
    body: map<string, Json>,
    toUpdate: Option<map<string, Json>>,
    responseDocument: Json,
    newDocument: Json,
    updatedDocument: Json,
    calls: seq<Call>)

  /** How serving a request ended. */
  datatype Exit = Sent(status: int, body: Json) | Unhandled(error: Error) | FellThrough

  /** The steps that ran, the request as they left it, and how it ended. */
  datatype Trace<M, S> = Trace(ran: seq<M>, state: S, exit: Exit)

  /** A step that did not continue ends the request: a response is sent,
      an error goes to handleError, which answers it or passes it on. */
  function Settle(o: Outcome): (e: Exit)
    requires !o.Continue?
    ensures o.Respond? ==> e == Sent(o.status, o.body)
    ensures !o.Respond? && HasStatus(Raised(o)) ==>
              e == Sent(Raised(o).status.value, ErrorBody(Raised(o).message))
    ensures !o.Respond? && !HasStatus(Raised(o)) ==> e == Unhandled(Raised(o))
  {
    if o.Respond? then Sent(o.status, o.body)
    else
      var handled := HandleError(Raised(o))[0];
      if handled.Respond? then Sent(handled.status, handled.body) else Unhandled(Raised(o))
  }

  /** Run a middleware chain: each step that continues hands the request to
      the next one; the first step that does not continue ends it. */
  function Run<M, S>(chain: seq<M>, s: S, step: (M, S) -> (S, Outcome)): (t: Trace<M, S>)
    ensures t.ran <= chain
    ensures chain != [] ==> |t.ran| > 0
    ensures t.exit.FellThrough? ==> t.ran == chain
    decreases |chain|
  {
    if chain == [] then Trace([], s, FellThrough)
    else
      var next := step(chain[0], s);
      if next.1.Continue? then
        var rest := Run(chain[1..], next.0, step);
        Trace([chain[0]] + rest.ran, rest.state, rest.exit)
      else
        Trace([chain[0]], next.0, Settle(next.1))
  }
}
