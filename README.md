# Express router factory, modelled in Dafny

The repository wires CRUD endpoints for a Mongoose model onto an Express
router. Two near-identical implementations exist: a class
(`RouterFactoryClass.js`) whose `GET`, `GET_id`, `POST`, `PUT`, `DELETE` and
`CRUD` methods register handler chains, and a closure (`routerFactory.js`)
that registers a fixed route table when called. This project models the
decision logic between Express and Mongoose:

- which middlewares run, in which order, for each verb and path
  (`buildHandlers` and the registration methods, the closure's route table);
- the population directives built by `setPopulate` and the projection set by
  `setProjection`, and how they shape every read query;
- the schema-driven request filters: required-field checks, stripping of
  unique fields from a PUT payload, detection of linked paths;
- the outcome of each middleware: continue, fail through `createError`,
  forward an error, or respond; and `handleError`'s choice between answering
  and forwarding.

Modules, one per file:

| file | module | models |
|---|---|---|
| values.dfy | `Values` | JavaScript values (`Json`), truthiness, `Array.prototype.join` |
| directives.dfy | `Directives` | `setPopulate`'s argument normalisation, the read query of `handleGET` |
| middleware.dfy | `Middleware` | errors, middleware outcomes, `createError`, `handleError`, `isIdValid`, the request object, and `Run`, Express's dispatch of a chain |
| schema.dfy | `Schema` | schema paths, `excludeUniqueFieldsFromPUT` (the same in both files) |
| routing.dfy | `Routing` | the router, reduced to the log of registrations made on it |
| router_factory_class.dfy | `RouterFactoryClass` | `RouterFactoryClass.js` |
| router_factory.dfy | `RouterFactory` | `routerFactory.js` |

State the source changes in place is modelled imperatively: the factory
class and the closure are Dafny classes whose `SetPopulate` appends to a
`seq` field in a loop and whose registration methods append to the router's
log. The loops of `buildHandlers`, `validateParameters`,
`areThereMissingPathsInParams`, `excludeUniqueFieldsFromPUT` and
`hasLinkedPaths` are methods with loop invariants, each proved against a
specification function about which the lemmas are stated.

Persistence is a set of oracle replies per request (`Env`): the reply of
`findById`, of the read query, of `save`, `findByIdAndUpdate` and
`findByIdAndRemove`, and, for the class, the error keys reported by
`Model.validate`. Each request logs the persistence calls it issued, so the
lemmas can say which calls happen (`Request.calls`). `Serve` runs a chain
of middlewares on a request: each middleware that continues hands on to the
next; the first that does not ends the request, errors going through
`handleError`. The closure registers its middlewares directly; the class
registers arguments (names or functions), and `RouterFactoryClass.Bound`
gives the middlewares Express runs for such a chain, so the class's
request lemmas are stated over `Bound` of the chains its methods register.

The model follows the code, including these behaviours a reader might not
expect:

- `routerFactory.js` refuses a body with the message
  `"The following field are required: "` followed by ALL required paths
  joined by single spaces, present or not (lemma
  `RouterFactory.ValidationNamesPresentFields`), not only the missing ones.
  A path with one validator of any kind counts as required, and a path with
  several validators is listed once per `'required'` validator.
- `RouterFactoryClass.js` fails whenever `Model.validate` reports an error,
  listing all its error keys joined by `", "`.
- The class's `CRUD` route for PUT does not strip unique fields: the body is
  sent to the update as it is (lemma `RouterFactoryClass.CrudPutSendsWholeBody`).
- `handleError` calls `next()` again after answering or forwarding.
- The closure's `handlePUT` destructures `req.toUpdate` with no fallback: on a
  request where it is unset this throws a TypeError before any update, and
  `handleError` passes it on unanswered (lemma
  `RouterFactory.PutWithoutPayloadIsNotAnswered`). Its own PUT route always
  sets it first. The class falls back to the body.
- A failed read by id calls `next(500, message)`: the error handed on is the
  number 500, which has no `status`, so `handleError` does not answer it.
- `linkCollections` answers 300 with `{Entries: [true, paths]}`, the whole
  pair returned by `hasLinkedPaths`, whenever the schema has a linked path.

## Model

| member | source | states |
|---|---|---|
| `Directives.Normalize` | RouterFactoryClass.js:134-143 | a string `s` becomes `[s, {}]`; a non-empty object `[first key, the value at that key]`; a non-empty array `["0", its first item]`; `{}` and `[]` push `[undefined, undefined]`; null throws; numbers, booleans and undefined add nothing |
| `Directives.Populated` | RouterFactoryClass.js:133-145 | one setPopulate call throws exactly when an argument is null, and pushes at most one entry per argument |
| `Directives.PopulatedAppend` | RouterFactoryClass.js:133-145 | two setPopulate calls push the same entries as one call with both argument lists, unless the first threw |
| `Directives.PopulatedOnePerArgument` | RouterFactoryClass.js:134-143 | exactly one entry per string or object argument before the first null, in argument order, each that argument's normal form |
| `Directives.PopulatedStrings` | routerFactory.js:238-243 | a call with strings only pushes `[s, {}]` for every string, in order |
| `Directives.ReadQuery` | RouterFactoryClass.js:173-183 | a read filters by id only when the id is set, applies every population directive in order, and selects the projection exactly when it is truthy |
| `Middleware.CreateError` | RouterFactoryClass.js:230-238 | the error carries the given message, and has a truthy status exactly when the code is non-zero |
| `Middleware.HandleError` | RouterFactoryClass.js:223-228 | an error with a truthy status is answered with that status and `{errorMessage}`, any other is forwarded unchanged, and `next()` follows in both cases |
| `Middleware.CreatedErrorsAreAnswered` | routerFactory.js:83-93 | every error made by createError with a non-zero code is answered by handleError with that code and message |
| `Middleware.Run` | RouterFactoryClass.js:28 | Express's dispatch of a registered chain: the middlewares that ran are a prefix of the chain, at least one runs on a non-empty chain, and the request falls through only after the whole chain continued |
| `Middleware.Settle` | RouterFactoryClass.js:29 | a middleware that stops the chain ends the request: a response is sent as given; an error reaches the handleError registered after every route and is answered with its status and `{errorMessage}` exactly when its status is truthy, otherwise passed on unanswered |
| `Middleware.IdCheck` | RouterFactoryClass.js:243-258 | no id continues whatever the lookup; a lookup finding nothing fails with 404; a failed lookup forwards its error unchanged; a found document continues |
| `Schema.ExcludeUniqueFields` | RouterFactoryClass.js:285-301 | the copy holds exactly the body's keys minus the unique-flagged paths, each with the body's value (the same code is at routerFactory.js:146-162) |
| `RouterFactoryClass.HandlersMembership` | RouterFactoryClass.js:331-347 | the handlers hold the default handler (when no middleware is given or its name is) and every other argument except 'login' and the default handler's name |
| `RouterFactoryClass.BuildHandlers` | RouterFactoryClass.js:321-348 | the loop yields the default handler alone for no middleware, else each argument translated in order; `login` is set exactly when 'login' is an argument |
| `RouterFactoryClass.RegisteredChains` | RouterFactoryClass.js:21-98 | every registered chain ends with sendResponseToClient; GET_id, PUT and DELETE start with isIdValid and GET does not; POST starts with checkForRequiredFields exactly without 'login'; none holds excludeUniqueFieldsFromPUT |
| `RouterFactoryClass.CrudTable` | RouterFactoryClass.js:100-129 | five routes and one error handler; every chain ends with sendResponseToClient, none strips unique fields, and exactly the `/:id` chains start with isIdValid |
| `RouterFactoryClass.RouterFactory.constructor` | RouterFactoryClass.js:2-10 | a new factory has no population directive and an undefined projection |
| `RouterFactoryClass.RouterFactory.Get` | RouterFactoryClass.js:21-30 | registers the built handlers then sendResponseToClient on the path, then handleError |
| `RouterFactoryClass.RouterFactory.GetById` | RouterFactoryClass.js:32-43 | registers isIdValid, the built handlers and sendResponseToClient, then handleError |
| `RouterFactoryClass.RouterFactory.Post` | RouterFactoryClass.js:45-68 | registers checkForRequiredFields (unless 'login'), the built handlers and sendResponseToClient, then handleError |
| `RouterFactoryClass.RouterFactory.Put` | RouterFactoryClass.js:70-81 | registers isIdValid, the built handlers and sendResponseToClient, then handleError |
| `RouterFactoryClass.RouterFactory.Delete` | RouterFactoryClass.js:83-98 | registers isIdValid, the built handlers and sendResponseToClient, then handleError |
| `RouterFactoryClass.RouterFactory.Crud` | RouterFactoryClass.js:100-129 | appends the CRUD route table to the router's registrations |
| `RouterFactoryClass.RouterFactory.SetProjection` | RouterFactoryClass.js:130-132 | replaces the projection and leaves the population directives alone |
| `RouterFactoryClass.RouterFactory.SetPopulate` | RouterFactoryClass.js:133-145 | appends the normalised arguments after the existing entries, stopping at a null argument, which throws |
| `RouterFactoryClass.RequiredFieldsCheck` | RouterFactoryClass.js:260-284 | continues exactly when validation reported no error; otherwise fails 400 with the error keys joined by ", " |
| `RouterFactoryClass.Label` | RouterFactoryClass.js:308-313 | GET, POST, PUT and DELETE map to "in database", "created", "modified", "deleted"; any other method to "undefined" |
| `RouterFactoryClass.ResponseToClient` | RouterFactoryClass.js:302-316 | always status 200 with a single key "Document(s) " + label, valued `responseDocument`, falling back to `updatedDocument` when it is falsy |
| `RouterFactoryClass.Step` | RouterFactoryClass.js:158-219 | each middleware issues at most one persistence call and keeps the method, id and body; only sendResponseToClient answers; the handlers continue exactly when their call resolved, keeping the result in `responseDocument`; a failure is the database error (POST, PUT), createError(500) (DELETE, list read) or the bare 500 (read by id); PUT updates with `req.toUpdate`, else the body |
| `RouterFactoryClass.Bound` | RouterFactoryClass.js:21-98 | the middlewares Express runs for a registered chain are exactly its functions; for a chain of functions only, they are its handlers one for one, in order |
| `RouterFactoryClass.UnknownIdIsNotFound` | RouterFactoryClass.js:243-258 | a chain starting with isIdValid answers an unknown id with 404 after the lookup alone, running no other middleware |
| `RouterFactoryClass.InvalidPostIsBadRequest` | RouterFactoryClass.js:260-284 | a chain starting with checkForRequiredFields answers a body validation rejects with 400 and saves nothing |
| `RouterFactoryClass.RegisteredIdRoutesAnswerUnknownId` | RouterFactoryClass.js:32-98 | the chains GET_id, PUT and DELETE register answer an unknown id with 404 after the lookup alone, whatever middlewares were given |
| `RouterFactoryClass.RegisteredPostRejectsInvalidBody` | RouterFactoryClass.js:45-68 | without 'login', the chain POST registers answers a body validation rejects with 400 and saves nothing |
| `RouterFactoryClass.DeleteThenSend` | RouterFactoryClass.js:196-206 | handleDELETE then sendResponseToClient issue the removal and answer 500 "The document could not be removed" on failure, else 200 with the removed document |
| `RouterFactoryClass.CrudDeleteRemoves` | RouterFactoryClass.js:122-126 | CRUD's DELETE of a known id issues the lookup and the removal and answers 500 on failure or 200 with the removed document |
| `RouterFactoryClass.PutThenSend` | RouterFactoryClass.js:208-219 | handlePUT then sendResponseToClient, with no `req.toUpdate`, update with the body itself and answer 200 with the updated document under the method's label |
| `RouterFactoryClass.CrudPutSendsWholeBody` | RouterFactoryClass.js:208-219 | CRUD's PUT sends the whole body, unique fields included, to the update and answers 200 with the updated document |
| `RouterFactoryClass.ReadByIdErrorIsNotAnswered` | RouterFactoryClass.js:185-189 | a failed read by id ends with the bare 500 unanswered by handleError |
| `RouterFactoryClass.ListReadThenSend` | RouterFactoryClass.js:173-194 | handleGET then sendResponseToClient without an id issue the read query, then answer 500 "The information could not be retrieved." on failure, else 200 with the documents under the method's label |
| `RouterFactoryClass.CrudListRead` | RouterFactoryClass.js:173-194 | a list read issues the query with every directive; failure is answered 500 "The information could not be retrieved.", success 200 under the key "Document(s) " + the method's label, which for GET is "Document(s) in database" |
| `RouterFactory.RouteTable` | routerFactory.js:8-19 | POST `/` is validateParameters, handlePOST, linkCollections; PUT `/:id` is isIdValid, validateParameters, excludeUniqueFieldsFromPUT, handlePUT; exactly the `/:id` chains start with isIdValid |
| `RouterFactory.RequiredCountPositive` | routerFactory.js:130-134 | a path with several validators contributes something exactly when one of them has type 'required' |
| `RouterFactory.RequiredMembership` | routerFactory.js:122-135 | a name is a required path exactly when a schema path of that name has one validator, or several of which one is 'required' |
| `RouterFactory.RequiredPaths` | routerFactory.js:114-135 | the nested loops build the required-path list in schema order, each path once per its contribution |
| `RouterFactory.AreThereMissingPathsInParams` | routerFactory.js:183-189 | true exactly when some listed path is not a key of the parameters |
| `RouterFactory.Validation` | routerFactory.js:138-144 | continues exactly when no required path is missing from the body; otherwise fails 400 naming all required paths joined by a space |
| `RouterFactory.ValidateBody` | routerFactory.js:110-145 | validateParameters' loops and test reach the decision `Validation` states |
| `RouterFactory.ValidationNamesPresentFields` | routerFactory.js:142-144 | with `name` and `email` required and only `name` given, the message is "The following field are required: name email" |
| `RouterFactory.LinkedMembership` | routerFactory.js:199-209 | a name is a linked path exactly when a schema path of that name has a truthy `ref` or a truthy `type[0]` |
| `RouterFactory.HasLinkedPaths` | routerFactory.js:190-214 | returns the linked paths in schema order, and a flag that holds exactly when some path is linked |
| `RouterFactory.LinkCollectionsReply` | routerFactory.js:163-174 | answers 200 `{Document}` exactly when the schema has no linked path, otherwise 300 `{Entries: [true, paths]}` |
| `RouterFactory.Factory.constructor` | routerFactory.js:3-19 | calling routerFactory registers the route table and starts with no directive and an undefined projection |
| `RouterFactory.Factory.SetProjection` | routerFactory.js:251-253 | replaces the closure's projection and leaves the population list alone |
| `RouterFactory.Factory.SetPopulate` | routerFactory.js:238-250 | appends the normalised arguments to the closure list, stopping at a null argument, which throws |
| `RouterFactory.Step` | routerFactory.js:24-79 | each middleware issues at most one persistence call and keeps the method, id and body; handleGET, handlePUT and handleDELETE answer 200 with their call's result themselves and linkCollections 200 or 300; a failure is the database error (POST, PUT), createError(500) (DELETE, list read) or the bare 500 (read by id); handlePUT without `req.toUpdate` throws before any update |
| `RouterFactory.UnknownIdIsNotFound` | routerFactory.js:97-108 | a chain starting with isIdValid answers an unknown id with 404 "The friend with the specified ID does not exist." after the lookup alone |
| `RouterFactory.PostMissingFieldIsBadRequest` | routerFactory.js:110-145 | a POST missing a required path is answered 400 naming all required paths, and nothing is saved |
| `RouterFactory.SavedPostIsLinked` | routerFactory.js:163-174 | a valid, saved POST is answered by linkCollections: 200 with the new document exactly when the schema has no linked path |
| `RouterFactory.PutNeverUpdatesUniqueFields` | routerFactory.js:146-162 | every update the PUT chain issues carries the body without the unique-flagged fields |
| `RouterFactory.ReadByIdErrorIsNotAnswered` | routerFactory.js:48-52 | a failed read by id ends with the bare 500 unanswered by handleError |
| `RouterFactory.DeleteRemoves` | routerFactory.js:58-68 | DELETE of a known id issues the lookup and the removal, and answers 500 "The friend could not be removed" on failure, else 200 with the removed document |
| `RouterFactory.PutWithoutPayloadIsNotAnswered` | routerFactory.js:69-79 | handlePUT on a request without `req.toUpdate` issues no update and ends with an error handleError does not answer; every route holding handlePUT also holds excludeUniqueFieldsFromPUT |

## Left out

- Express transport (`router.route`, `res.status().json()`, `req.baseUrl`, JSON serialisation): responses are `Respond(status, body)` values and registrations a log.
- Express rejecting a chain that holds a string (a name other than 'login' or the verb's default handler passed to `GET`/`POST`/...): the model records the chain as given, and `Bound` drops the name.
- Mongoose (`find`, `populate`, `select`, `exec`, `save`, `findById`, `findByIdAndUpdate`, `findByIdAndRemove`, `Model.validate`): their replies are inputs of each request, and the calls issued are logged.
- Promise and callback sequencing: each middleware is one step; `Run` stops at the first response or error and does not follow the `next()` that `handleError` calls after answering.
- Middlewares supplied by the caller are an oracle outcome (`Env.custom`); what they do to the request is not modelled.
- `findInOtherCollections`: it queries the database connection asynchronously and its result is not used.
- `sayHello`, the `hello` field, `newModel` and the `console.log` calls: diagnostics and a constructor wrapper.
- JavaScript numbers are integers here (no fractions, no NaN).
- `Schema.UniqueFlagged` recognises `unique` set to `true` or `1`; loose equality of other values with `true` (the string "1", the array `[1]`) is not modelled.
- The body is a map: the order of its keys is not modelled, nor a body key named `hasOwnProperty` shadowing the method.
- Function arguments of `setPopulate` (typeof 'function') are not representable as `Json`; like numbers they add nothing.
- `hasLinkedPaths` throwing when a path has no `type` option: every modelled schema path has one.
