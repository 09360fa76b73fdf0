/** The class-based router factory (RouterFactoryClass.js): registration
    of handler chains per verb, the population and projection directives it
    keeps, and the middlewares its chains are made of. */
module RouterFactoryClass {
  import opened Values
  import opened Directives
  import opened Middleware
  import opened Schema
  import opened Routing

  /** The middlewares the class binds to itself, and a function supplied by
      the caller. */
  datatype Handler =
    | IsIdValid
    | CheckForRequiredFields
    | ExcludeUniqueFieldsFromPUT
    | HandleGET
    | HandlePOST
    | HandlePUT
    | HandleDELETE
    | SendResponseToClient
    | Custom(id: nat)

  /** An argument of GET/POST/...: a string such as 'login' or 'handleGET',
      or a middleware function. Handlers pushed by buildHandlers are
      arguments too, since unrecognised ones are pushed unchanged. */
  datatype Arg = Named(name: string) | Fn(handler: Handler)

  const Login := Named("login")

  /** The class's own middlewares are not exported: the functions a caller
      can pass are its own. */
  predicate UserSupplied(middlewares: seq<Arg>) {
    forall i :: 0 <= i < |middlewares| && middlewares[i].Fn? ==> middlewares[i].handler.Custom?
  }

  /** buildHandlers' `defaultHandler` table. */
  function DefaultName(verb: Verb): string {
    match verb
    case GET => "handleGET"
    case POST => "handlePOST"
    case PUT => "handlePUT"
    case DELETE => "handleDELETE"
  }

  function DefaultHandler(verb: Verb): Handler {
    match verb
    case GET => HandleGET
    case POST => HandlePOST
    case PUT => HandlePUT
    case DELETE => HandleDELETE
  }

  /** What buildHandlers pushes for one argument. */
  function ItemFor(verb: Verb, m: Arg): seq<Arg> {
    if m == Login then []
    else if m == Named(DefaultName(verb)) then [Fn(DefaultHandler(verb))]
    else [m]
  }

  function Translated(verb: Verb, middlewares: seq<Arg>): seq<Arg> {
    if middlewares == [] then []
    else ItemFor(verb, middlewares[0]) + Translated(verb, middlewares[1..])
  }

  /** The handlers buildHandlers produces: the default handler alone when
      no middleware is given, else each argument translated in order. */
  function Handlers(verb: Verb, middlewares: seq<Arg>): seq<Arg> {
    if middlewares == [] then [Fn(DefaultHandler(verb))] else Translated(verb, middlewares)
  }

  lemma {:induction false} TranslatedSnoc(verb: Verb, middlewares: seq<Arg>, m: Arg)
    ensures Translated(verb, middlewares + [m]) == Translated(verb, middlewares) + ItemFor(verb, m)
  {
    if middlewares != [] {
      assert (middlewares + [m])[1..] == middlewares[1..] + [m];
      TranslatedSnoc(verb, middlewares[1..], m);
    } else {
      assert [m][1..] == [];
    }
  }

  lemma {:induction false} TranslatedMembership(verb: Verb, middlewares: seq<Arg>, x: Arg)
    ensures x in Translated(verb, middlewares) <==>
              (x == Fn(DefaultHandler(verb)) && Named(DefaultName(verb)) in middlewares)
              || (x in middlewares && x != Login && x != Named(DefaultName(verb)))
  {
    if middlewares != [] {
      TranslatedMembership(verb, middlewares[1..], x);
      assert middlewares == [middlewares[0]] + middlewares[1..];
    }
  }

  /** buildHandlers' output holds the default handler (when it was named,
      or when nothing was given) and the other arguments except 'login'
      and the default handler's name. */
  lemma HandlersMembership(verb: Verb, middlewares: seq<Arg>, x: Arg)
    ensures x in Handlers(verb, middlewares) <==>
              (x == Fn(DefaultHandler(verb)) && (middlewares == [] || Named(DefaultName(verb)) in middlewares))
              || (x in middlewares && x != Login && x != Named(DefaultName(verb)))
  {
    if middlewares != [] {
      TranslatedMembership(verb, middlewares, x);
    }
  }

  /** buildHandlers: fill `handlers` and set `options.login`. */
  method BuildHandlers(verb: Verb, middlewares: seq<Arg>) returns (handlers: seq<Arg>, login: bool)
    ensures handlers == Handlers(verb, middlewares)
    ensures login <==> Login in middlewares
  {
    handlers, login := [], false;
    if |middlewares| == 0 {
      handlers := handlers + [Fn(DefaultHandler(verb))];
    } else {
      for i := 0 to |middlewares|
        invariant handlers == Translated(verb, middlewares[..i])
        invariant login <==> Login in middlewares[..i]
      {
        var m := middlewares[i];
        TranslatedSnoc(verb, middlewares[..i], m);
        assert middlewares[..i + 1] == middlewares[..i] + [m];
        if m == Login {
          login := true;
        } else if m == Named(DefaultName(verb)) {
          handlers := handlers + [Fn(DefaultHandler(verb))];
        } else {
          handlers := handlers + [m];
        }
      }
      assert middlewares[..|middlewares|] == middlewares;
    }
  }

  const Send := Fn(SendResponseToClient)

  function GetChain(middlewares: seq<Arg>): seq<Arg> {
    Handlers(GET, middlewares) + [Send]
  }

  function GetByIdChain(middlewares: seq<Arg>): seq<Arg> {
    [Fn(IsIdValid)] + Handlers(GET, middlewares) + [Send]
  }

  function PostChain(middlewares: seq<Arg>): seq<Arg> {
    (if Login in middlewares then [] else [Fn(CheckForRequiredFields)])
      + Handlers(POST, middlewares) + [Send]
  }

  function PutChain(middlewares: seq<Arg>): seq<Arg> {
    [Fn(IsIdValid)] + Handlers(PUT, middlewares) + [Send]
  }

  function DeleteChain(middlewares: seq<Arg>): seq<Arg> {
    [Fn(IsIdValid)] + Handlers(DELETE, middlewares) + [Send]
  }

  /** The shape of every chain GET, GET_id, POST, PUT and DELETE register:
      it ends with sendResponseToClient; the id routes start with
      isIdValid and GET does not; POST starts with checkForRequiredFields
      exactly when 'login' was not given; excludeUniqueFieldsFromPUT is in
      none of them. */
  lemma RegisteredChains(middlewares: seq<Arg>)
    requires UserSupplied(middlewares)
    ensures var c := GetChain(middlewares); c[|c| - 1] == Send && c[0] != Fn(IsIdValid)
    ensures var c := GetByIdChain(middlewares); c[|c| - 1] == Send && c[0] == Fn(IsIdValid)
    ensures var c := PutChain(middlewares); c[|c| - 1] == Send && c[0] == Fn(IsIdValid)
    ensures var c := DeleteChain(middlewares); c[|c| - 1] == Send && c[0] == Fn(IsIdValid)
    ensures var c := PostChain(middlewares);
              c[|c| - 1] == Send && (c[0] == Fn(CheckForRequiredFields) <==> Login !in middlewares)
    ensures Fn(ExcludeUniqueFieldsFromPUT) !in GetChain(middlewares)
    ensures Fn(ExcludeUniqueFieldsFromPUT) !in GetByIdChain(middlewares)
    ensures Fn(ExcludeUniqueFieldsFromPUT) !in PostChain(middlewares)
    ensures Fn(ExcludeUniqueFieldsFromPUT) !in PutChain(middlewares)
    ensures Fn(ExcludeUniqueFieldsFromPUT) !in DeleteChain(middlewares)
  {
    var ex := Fn(ExcludeUniqueFieldsFromPUT);
    assert ex !in middlewares;
    assert Fn(IsIdValid) !in middlewares;
    assert Fn(CheckForRequiredFields) !in middlewares;
    forall verb: Verb
      ensures ex !in Handlers(verb, middlewares)
      ensures Fn(IsIdValid) !in Handlers(verb, middlewares)
      ensures Fn(CheckForRequiredFields) !in Handlers(verb, middlewares)
    {
      HandlersMembership(verb, middlewares, ex);
      HandlersMembership(verb, middlewares, Fn(IsIdValid));
      HandlersMembership(verb, middlewares, Fn(CheckForRequiredFields));
    }
    var g := Handlers(GET, middlewares);
    if g != [] {
      assert g[0] in g;
    }
    var p := Handlers(POST, middlewares);
    if p != [] {
      assert p[0] in p;
    }
  }

  /** CRUD's route table. */
  function CrudTable(): (t: seq<RouterCall<Arg>>)
    ensures |t| == 6 && t[5] == ErrorHandler
    ensures forall i :: 0 <= i < 5 ==>
              t[i].Registered? && |t[i].chain| > 0 && t[i].chain[|t[i].chain| - 1] == Send
              && Fn(ExcludeUniqueFieldsFromPUT) !in t[i].chain
              && (t[i].path == "/:id" <==> t[i].chain[0] == Fn(IsIdValid))
  {
    [ Registered("/", GET, [Fn(HandleGET), Send]),
      Registered("/", POST, [Fn(CheckForRequiredFields), Fn(HandlePOST), Send]),
      Registered("/:id", GET, [Fn(IsIdValid), Fn(HandleGET), Send]),
      Registered("/:id", PUT, [Fn(IsIdValid), Fn(HandlePUT), Send]),
      Registered("/:id", DELETE, [Fn(IsIdValid), Fn(HandleDELETE), Send]),
      ErrorHandler ]
  }

  /** The factory state the bound middlewares read when a request comes. */
  datatype Config = Config(schema: seq<SchemaPath>, toPopulate: seq<Entry>, projection: Json)

  /** An instance of the class: the router it registers on, the model's
      schema, and the population and projection directives. */
  class RouterFactory {
    const router: Router<Arg>
    const schema: seq<SchemaPath>
    var toPopulate: seq<Entry>
    var projection: Json

    constructor (router: Router<Arg>, schema: seq<SchemaPath>)
      ensures this.router == router && this.schema == schema
      ensures toPopulate == [] && projection == JUndefined
    {
      this.router := router;
      this.schema := schema;
      toPopulate := [];
      projection := JUndefined;
    }

    method Get(path: string := "/", middlewares: seq<Arg> := [])
      modifies router
      ensures router.log == old(router.log) + [Registered(path, GET, GetChain(middlewares)), ErrorHandler]
    {
      var handlers, _ := BuildHandlers(GET, middlewares);
      router.Route(path, GET, handlers + [Send]);
      router.Use();
    }

    method GetById(path: string := "/:id", middlewares: seq<Arg> := [])
      modifies router
      ensures router.log == old(router.log) + [Registered(path, GET, GetByIdChain(middlewares)), ErrorHandler]
    {
      var handlers, _ := BuildHandlers(GET, middlewares);
      router.Route(path, GET, [Fn(IsIdValid)] + handlers + [Send]);
      router.Use();
    }

    method Post(path: string := "/", middlewares: seq<Arg> := [])
      modifies router
      ensures router.log == old(router.log) + [Registered(path, POST, PostChain(middlewares)), ErrorHandler]
    {
      var handlers, login := BuildHandlers(POST, middlewares);
      if login {
        assert PostChain(middlewares) == [] + handlers + [Send] == handlers + [Send];
        router.Route(path, POST, handlers + [Send]);
      } else {
        router.Route(path, POST, [Fn(CheckForRequiredFields)] + handlers + [Send]);
      }
      router.Use();
    }

    method Put(path: string := "/:id", middlewares: seq<Arg> := [])
      modifies router
      ensures router.log == old(router.log) + [Registered(path, PUT, PutChain(middlewares)), ErrorHandler]
    {
      var handlers, _ := BuildHandlers(PUT, middlewares);
      router.Route(path, PUT, [Fn(IsIdValid)] + handlers + [Send]);
      router.Use();
    }

    method Delete(path: string := "/:id", middlewares: seq<Arg> := [])
      modifies router
      ensures router.log == old(router.log) + [Registered(path, DELETE, DeleteChain(middlewares)), ErrorHandler]
    {
      var handlers, _ := BuildHandlers(DELETE, middlewares);
      router.Route(path, DELETE, [Fn(IsIdValid)] + handlers + [Send]);
      router.Use();
    }

    method Crud()
      modifies router
      ensures router.log == old(router.log) + CrudTable()
    {
      router.Route("/", GET, [Fn(HandleGET), Send]);
      router.Route("/", POST, [Fn(CheckForRequiredFields), Fn(HandlePOST), Send]);
      router.Route("/:id", GET, [Fn(IsIdValid), Fn(HandleGET), Send]);
      router.Route("/:id", PUT, [Fn(IsIdValid), Fn(HandlePUT), Send]);
      router.Route("/:id", DELETE, [Fn(IsIdValid), Fn(HandleDELETE), Send]);
      router.Use();
    }

    method SetProjection(projections: Json)
      modifies this
      ensures projection == projections && toPopulate == old(toPopulate)
    {
      projection := projections;
    }

    /** setPopulate: push the normal form of each argument in turn; a null
        argument throws, leaving what was pushed before it. */
    method SetPopulate(args: seq<Json>) returns (completed: bool)
      modifies this
      ensures completed <==> JNull !in args
      ensures toPopulate == old(toPopulate) + Populated(args).entries
      ensures projection == old(projection)
    {
      completed := true;
      var i := 0;
      while i < |args|
        invariant 0 <= i <= |args|
        invariant !Populated(args[..i]).thrown
        invariant toPopulate == old(toPopulate) + Populated(args[..i]).entries
        invariant projection == old(projection)
      {
        PopulatedAppend(args[..i], [args[i]]);
        assert args[..i + 1] == args[..i] + [args[i]];
        match Normalize(args[i]) {
          case Push(e) =>
            toPopulate := toPopulate + [e];
          case Skip =>
          case Throw =>
            PopulatedAppend(args[..i + 1], args[i + 1..]);
            assert args[..i + 1] + args[i + 1..] == args;
            completed := false;
            return;
        }
        i := i + 1;
      }
      assert args[..i] == args;
    }
  }

  const NotFoundMessage := "The data with the specified ID does not exist."
  const RequiredFieldsPrefix := "The following field(s) are required: "
  const ReadFailedMessage := "The information could not be retrieved."
  const RemoveFailedMessage := "The document could not be removed"

  /** checkForRequiredFields, given the keys of `error.errors` reported by
      the model's validation (None when it reported no error). */
  function RequiredFieldsCheck(validation: Option<seq<string>>): (o: Outcome)
    ensures o == Continue <==> validation.None?
    ensures validation.Some? ==>
              o == Fail(400, RequiredFieldsPrefix + Join(validation.value, ", "))
  {
    match validation
    case None => Continue
    case Some(keys) => Fail(400, RequiredFieldsPrefix + Join(keys, ", "))
  }

  /** sendResponseToClient's label table, indexed by `req.method`. */
  function Label(verb: string): (word: string)
    ensures verb == "GET" ==> word == "in database"
    ensures verb == "POST" ==> word == "created"
    ensures verb == "PUT" ==> word == "modified"
    ensures verb == "DELETE" ==> word == "deleted"
    ensures verb !in {"GET", "POST", "PUT", "DELETE"} ==> word == "undefined"
  {
    if verb == "GET" then "in database"
    else if verb == "POST" then "created"
    else if verb == "PUT" then "modified"
    else if verb == "DELETE" then "deleted"
    else "undefined"
  }

  /** sendResponseToClient: status 200 and a single key naming the verb's
      label, whose value is `responseDocument || updatedDocument`. */
  function ResponseToClient(req: Request): (o: Outcome)
    ensures o.Respond? && o.status == 200
    ensures o.body.JObj? && |o.body.entries| == 1
    ensures o.body.entries[0].0 == "Document(s) " + Label(req.verb)
    ensures o.body.entries[0].1 == Or(req.responseDocument, req.updatedDocument)
  {
    Respond(200, Single("Document(s) " + Label(req.verb), Or(req.responseDocument, req.updatedDocument)))
  }

  /** The replies of the persistence layer to this request, and what the
      caller's own middlewares do. */
  datatype Env = Env(
    findById: Reply,
    validation: Option<seq<string>>,
    find: Reply,
    save: Reply,
    update: Reply,
    remove: Reply,
    custom: nat -> Outcome)

  /** One middleware of the class applied to a request. Each issues at most
      one persistence call and leaves the method, id and body alone; only
      sendResponseToClient (or a caller's middleware) answers. The four
      handlers continue exactly when their call resolved, keeping its result
      in `req.responseDocument`; a failure is handed on as the database's
      own error (POST, PUT), as createError(500, …) (DELETE, list read) or
      as the bare 500 of `next(500, …)` (read by id). PUT updates with
      `req.toUpdate`, falling back to the body when it is unset. */
  function Step(h: Handler, req: Request, env: Env, cfg: Config): (r: (Request, Outcome))
    ensures req.calls <= r.0.calls && |r.0.calls| <= |req.calls| + 1
    ensures r.0.verb == req.verb && r.0.id == req.id && r.0.body == req.body
    ensures r.1.Respond? <==> h == SendResponseToClient || (h.Custom? && env.custom(h.id).Respond?)
    ensures h == HandleGET ==>
              r.0.calls == req.calls + [Find(ReadQuery(req.id, cfg.toPopulate, cfg.projection))]
              && (env.find.Resolved? ==> r.1 == Continue && r.0.responseDocument == env.find.value)
              && (env.find.Rejected? ==>
                    r.1 == if Truthy(req.id) then Forward(Bare(500)) else Fail(500, ReadFailedMessage))
    ensures h == HandlePOST ==>
              r.0.calls == req.calls + [Save(req.body)]
              && (env.save.Resolved? ==> r.1 == Continue && r.0.responseDocument == env.save.value)
              && (env.save.Rejected? ==> r.1 == Forward(env.save.error))
    ensures h == HandlePUT ==>
              r.0.calls == req.calls + [Update(req.id, if req.toUpdate.Some? then req.toUpdate.value else req.body)]
              && (env.update.Resolved? ==> r.1 == Continue && r.0.responseDocument == env.update.value)
              && (env.update.Rejected? ==> r.1 == Forward(env.update.error))
    ensures h == HandleDELETE ==>
              r.0.calls == req.calls + [Remove(req.id)]
              && (env.remove.Resolved? ==> r.1 == Continue && r.0.responseDocument == env.remove.value)
              && (env.remove.Rejected? ==> r.1 == Fail(500, RemoveFailedMessage))
  {
    match h
    case IsIdValid =>
      var req' := if Truthy(req.id) then req.(calls := req.calls + [FindById(req.id)]) else req;
      (req', IdCheck(req.id, env.findById, NotFoundMessage))
    case CheckForRequiredFields =>
      (req.(calls := req.calls + [Validate(req.body)]), RequiredFieldsCheck(env.validation))
    case ExcludeUniqueFieldsFromPUT =>
      (req.(toUpdate := Some(WithoutUnique(cfg.schema, req.body))), Continue)
    case HandleGET =>
      var req' := req.(calls := req.calls + [Find(ReadQuery(req.id, cfg.toPopulate, cfg.projection))]);
      (match env.find
       case Rejected(_) =>
         (req', if Truthy(req.id) then Forward(Bare(500)) else Fail(500, ReadFailedMessage))
       case Resolved(docs) => (req'.(responseDocument := docs), Continue))
    case HandlePOST =>
      var req' := req.(calls := req.calls + [Save(req.body)]);
      (match env.save
       case Rejected(e) => (req', Forward(e))
       case Resolved(doc) => (req'.(responseDocument := doc), Continue))
    case HandlePUT =>
      var patch := if req.toUpdate.Some? then req.toUpdate.value else req.body;
      var req' := req.(calls := req.calls + [Update(req.id, patch)]);
      (match env.update
       case Rejected(e) => (req', Forward(e))
       case Resolved(doc) => (req'.(responseDocument := doc), Continue))
    case HandleDELETE =>
      var req' := req.(calls := req.calls + [Remove(req.id)]);
      (match env.remove
       case Rejected(_) => (req', Fail(500, RemoveFailedMessage))
       case Resolved(doc) => (req'.(responseDocument := doc), Continue))
    case SendResponseToClient => (req, ResponseToClient(req))
    case Custom(k) => (req, env.custom(k))
  }

  /** Serve a request with a registered chain. */
  function Serve(chain: seq<Handler>, req: Request, env: Env, cfg: Config): Trace<Handler, Request> {
    Run(chain, req, (h, r) => Step(h, r, env, cfg))
  }

  /** The chain holds no name, only functions. */
  predicate AllFunctions(chain: seq<Arg>) {
    forall i :: 0 <= i < |chain| ==> chain[i].Fn?
  }

  /** The middlewares Express runs for a registered chain: the functions in
      it, in order. A name left in a chain is dropped here; Express refuses
      such a chain when it is registered. */
  function Bound(chain: seq<Arg>): (hs: seq<Handler>)
    ensures |hs| <= |chain|
    ensures forall h :: h in hs <==> Fn(h) in chain
    ensures AllFunctions(chain) ==>
              |hs| == |chain| && forall i :: 0 <= i < |chain| ==> hs[i] == chain[i].handler
  {
    if chain == [] then []
    else
      (match chain[0] case Fn(h) => [h] case Named(_) => []) + Bound(chain[1..])
  }

  /** A request for an id the store does not hold stops at isIdValid with
      404: no other middleware runs and only the lookup is issued. */
  lemma UnknownIdIsNotFound(chain: seq<Handler>, req: Request, env: Env, cfg: Config)
    requires chain != [] && chain[0] == IsIdValid
    requires Truthy(req.id) && env.findById.Resolved? && !Truthy(env.findById.value)
    ensures Serve(chain, req, env, cfg).ran == [IsIdValid]
    ensures Serve(chain, req, env, cfg).state.calls == req.calls + [FindById(req.id)]
    ensures Serve(chain, req, env, cfg).exit == Sent(404, ErrorBody(NotFoundMessage))
  {
    assert Step(IsIdValid, req, env, cfg).1 == Fail(404, NotFoundMessage);
  }

  /** A POST whose validation reports errors is answered 400 with the
      reported keys, before anything is saved. */
  lemma InvalidPostIsBadRequest(chain: seq<Handler>, req: Request, env: Env, cfg: Config)
    requires chain != [] && chain[0] == CheckForRequiredFields
    requires env.validation.Some?
    ensures Serve(chain, req, env, cfg).ran == [CheckForRequiredFields]
    ensures Serve(chain, req, env, cfg).state.calls == req.calls + [Validate(req.body)]
    ensures Serve(chain, req, env, cfg).exit ==
              Sent(400, ErrorBody(RequiredFieldsPrefix + Join(env.validation.value, ", ")))
  {
    assert Step(CheckForRequiredFields, req, env, cfg).1 ==
           Fail(400, RequiredFieldsPrefix + Join(env.validation.value, ", "));
  }

  /** handlePUT then sendResponseToClient, with no `req.toUpdate`: the
      body itself is the update. */
  lemma PutThenSend(r1: Request, env: Env, cfg: Config)
    requires r1.toUpdate.None? && env.update.Resolved?
    ensures var t := Serve([HandlePUT, SendResponseToClient], r1, env, cfg);
              t.state.calls == r1.calls + [Update(r1.id, r1.body)]
              && t.exit == Sent(200, Single("Document(s) " + Label(r1.verb),
                                            Or(env.update.value, r1.updatedDocument)))
  {
    var step := (h, r) => Step(h, r, env, cfg);
    var r2 := r1.(calls := r1.calls + [Update(r1.id, r1.body)], responseDocument := env.update.value);
    assert step(HandlePUT, r1) == (r2, Continue);
    assert [HandlePUT, SendResponseToClient][1..] == [SendResponseToClient];
    assert Run([SendResponseToClient], r2, step).exit == Settle(ResponseToClient(r2));
  }

  /** CRUD's PUT sends the body itself as the update, unique fields
      included, and answers with the updated document. */
  lemma CrudPutSendsWholeBody(req: Request, env: Env, cfg: Config)
    requires req.toUpdate.None? && Truthy(req.id)
    requires env.findById.Resolved? && Truthy(env.findById.value)
    requires env.update.Resolved?
    ensures CrudTable()[3].chain == [Fn(IsIdValid), Fn(HandlePUT), Send]
    ensures var t := Serve(Bound(CrudTable()[3].chain), req, env, cfg);
              t.state.calls == req.calls + [FindById(req.id), Update(req.id, req.body)]
              && t.exit == Sent(200, Single("Document(s) " + Label(req.verb),
                                            Or(env.update.value, req.updatedDocument)))
  {
    var chain := [IsIdValid, HandlePUT, SendResponseToClient];
    assert CrudTable()[3].chain == [Fn(IsIdValid), Fn(HandlePUT), Send];
    BoundLiteral3(IsIdValid, HandlePUT, SendResponseToClient);
    var step := (h, r) => Step(h, r, env, cfg);
    var r1 := req.(calls := req.calls + [FindById(req.id)]);
    assert step(IsIdValid, req) == (r1, Continue);
    assert chain[1..] == [HandlePUT, SendResponseToClient];
    assert Serve(chain, req, env, cfg).state == Serve(chain[1..], r1, env, cfg).state;
    assert Serve(chain, req, env, cfg).exit == Serve(chain[1..], r1, env, cfg).exit;
    PutThenSend(r1, env, cfg);
  }

  /** A failed read by id reaches handleError as a bare 500, which has no
      `status`, so handleError does not answer it. */
  lemma ReadByIdErrorIsNotAnswered(req: Request, env: Env, cfg: Config)
    requires Truthy(req.id) && env.findById.Resolved? && Truthy(env.findById.value)
    requires env.find.Rejected?
    ensures var t := Serve(Bound(CrudTable()[2].chain), req, env, cfg);
              t.ran == [IsIdValid, HandleGET] && t.exit == Unhandled(Bare(500))
  {
    var chain := [IsIdValid, HandleGET, SendResponseToClient];
    assert CrudTable()[2].chain == [Fn(IsIdValid), Fn(HandleGET), Send];
    BoundLiteral3(IsIdValid, HandleGET, SendResponseToClient);
    var step := (h, r) => Step(h, r, env, cfg);
    var r1 := req.(calls := req.calls + [FindById(req.id)]);
    assert step(IsIdValid, req) == (r1, Continue);
    assert chain[1..] == [HandleGET, SendResponseToClient];
    assert step(HandleGET, r1).1 == Forward(Bare(500));
    assert Run(chain[1..], r1, step).ran == [HandleGET];
    assert Serve(chain, req, env, cfg).ran == [IsIdValid] + Serve(chain[1..], r1, env, cfg).ran;
    assert Serve(chain, req, env, cfg).exit == Serve(chain[1..], r1, env, cfg).exit;
  }

  /** The key a GET is answered under. */
  lemma GetResponseKey()
    ensures "Document(s) " + Label("GET") == "Document(s) in database"
  {
    assert Label("GET") == "in database";
  }

  /** handleGET then sendResponseToClient on a request without an id. */
  lemma ListReadThenSend(req: Request, env: Env, cfg: Config)
    requires !Truthy(req.id)
    ensures var t := Serve([HandleGET, SendResponseToClient], req, env, cfg);
              t.state.calls == req.calls + [Find(ReadQuery(req.id, cfg.toPopulate, cfg.projection))]
              && (env.find.Rejected? ==> t.exit == Sent(500, ErrorBody(ReadFailedMessage)))
              && (env.find.Resolved? ==>
                    t.exit == Sent(200, Single("Document(s) " + Label(req.verb),
                                               Or(env.find.value, req.updatedDocument))))
  {
    var step := (h, r) => Step(h, r, env, cfg);
    var r1 := req.(calls := req.calls + [Find(ReadQuery(req.id, cfg.toPopulate, cfg.projection))]);
    if env.find.Resolved? {
      var r2 := r1.(responseDocument := env.find.value);
      assert step(HandleGET, req) == (r2, Continue);
      assert [HandleGET, SendResponseToClient][1..] == [SendResponseToClient];
      assert Run([SendResponseToClient], r2, step).exit == Settle(ResponseToClient(r2));
    } else {
      assert step(HandleGET, req) == (r1, Fail(500, ReadFailedMessage));
    }
  }

  /** A failed list read is answered 500 by handleError; a successful one
      is answered 200 with the documents under the verb's label ("Document(s)
      in database" for GET), and the query carries every population
      directive, in order. */
  lemma CrudListRead(req: Request, env: Env, cfg: Config)
    requires !Truthy(req.id)
    ensures CrudTable()[0].chain == [Fn(HandleGET), Send]
    ensures var t := Serve(Bound(CrudTable()[0].chain), req, env, cfg);
              t.state.calls == req.calls + [Find(Query(None, cfg.toPopulate,
                                            if Truthy(cfg.projection) then Some(cfg.projection) else None))]
              && (env.find.Rejected? ==> t.exit == Sent(500, ErrorBody(ReadFailedMessage)))
              && (env.find.Resolved? ==>
                    t.exit == Sent(200, Single("Document(s) " + Label(req.verb),
                                               Or(env.find.value, req.updatedDocument))))
              && (env.find.Resolved? && req.verb == "GET" ==>
                    t.exit == Sent(200, Single("Document(s) in database",
                                               Or(env.find.value, req.updatedDocument))))
  {
    var chain := [HandleGET, SendResponseToClient];
    assert CrudTable()[0].chain == [Fn(HandleGET), Send];
    assert Bound([Fn(HandleGET), Send]) == chain by {
      assert [Fn(HandleGET), Send][1..] == [Send];
    }
    assert Serve(Bound(CrudTable()[0].chain), req, env, cfg) == Serve(chain, req, env, cfg);
    ListReadThenSend(req, env, cfg);
    assert ReadQuery(req.id, cfg.toPopulate, cfg.projection) ==
           Query(None, cfg.toPopulate, if Truthy(cfg.projection) then Some(cfg.projection) else None);
    GetResponseKey();
  }

  lemma BoundLiteral3(a: Handler, b: Handler, c: Handler)
    ensures Bound([Fn(a), Fn(b), Fn(c)]) == [a, b, c]
  {
    assert [Fn(a), Fn(b), Fn(c)][1..] == [Fn(b), Fn(c)];
    assert [Fn(b), Fn(c)][1..] == [Fn(c)];
  }

  /** The chains GET_id, PUT and DELETE register answer an unknown id with
      404 after the lookup alone, whatever middlewares the caller gave. */
  lemma RegisteredIdRoutesAnswerUnknownId(middlewares: seq<Arg>, req: Request, env: Env, cfg: Config)
    requires Truthy(req.id) && env.findById.Resolved? && !Truthy(env.findById.value)
    ensures forall chain :: chain in [GetByIdChain(middlewares), PutChain(middlewares), DeleteChain(middlewares)] ==>
              var t := Serve(Bound(chain), req, env, cfg);
              t.ran == [IsIdValid] && t.state.calls == req.calls + [FindById(req.id)]
              && t.exit == Sent(404, ErrorBody(NotFoundMessage))
  {
    forall chain | chain in [GetByIdChain(middlewares), PutChain(middlewares), DeleteChain(middlewares)]
      ensures var t := Serve(Bound(chain), req, env, cfg);
                t.ran == [IsIdValid] && t.state.calls == req.calls + [FindById(req.id)]
                && t.exit == Sent(404, ErrorBody(NotFoundMessage))
    {
      assert chain[0] == Fn(IsIdValid);
      UnknownIdIsNotFound(Bound(chain), req, env, cfg);
    }
  }

  /** Without 'login', the chain POST registers answers a body validation
      rejects with 400 before anything is saved. */
  lemma RegisteredPostRejectsInvalidBody(middlewares: seq<Arg>, req: Request, env: Env, cfg: Config)
    requires Login !in middlewares
    requires env.validation.Some?
    ensures var t := Serve(Bound(PostChain(middlewares)), req, env, cfg);
              t.ran == [CheckForRequiredFields] && t.state.calls == req.calls + [Validate(req.body)]
              && t.exit == Sent(400, ErrorBody(RequiredFieldsPrefix + Join(env.validation.value, ", ")))
  {
    assert PostChain(middlewares)[0] == Fn(CheckForRequiredFields);
    InvalidPostIsBadRequest(Bound(PostChain(middlewares)), req, env, cfg);
  }

  /** handleDELETE followed by sendResponseToClient, on a request whose id
      was found. */
  lemma DeleteThenSend(r1: Request, env: Env, cfg: Config)
    ensures var t := Serve([HandleDELETE, SendResponseToClient], r1, env, cfg);
              t.state.calls == r1.calls + [Remove(r1.id)]
              && (env.remove.Rejected? ==> t.exit == Sent(500, ErrorBody(RemoveFailedMessage)))
              && (env.remove.Resolved? ==>
                    t.exit == Sent(200, Single("Document(s) " + Label(r1.verb),
                                               Or(env.remove.value, r1.updatedDocument))))
  {
    var step := (h, r) => Step(h, r, env, cfg);
    var r2 := r1.(calls := r1.calls + [Remove(r1.id)]);
    if env.remove.Resolved? {
      var r3 := r2.(responseDocument := env.remove.value);
      assert step(HandleDELETE, r1) == (r3, Continue);
      assert [HandleDELETE, SendResponseToClient][1..] == [SendResponseToClient];
      assert Run([SendResponseToClient], r3, step).exit == Settle(ResponseToClient(r3));
    } else {
      assert step(HandleDELETE, r1) == (r2, Fail(500, RemoveFailedMessage));
    }
  }

  /** CRUD's DELETE of a known id removes it: a failed removal is answered
      500 "The document could not be removed", a successful one 200 with the
      removed document under the verb's label. */
  lemma CrudDeleteRemoves(req: Request, env: Env, cfg: Config)
    requires Truthy(req.id) && env.findById.Resolved? && Truthy(env.findById.value)
    ensures CrudTable()[4].chain == [Fn(IsIdValid), Fn(HandleDELETE), Send]
    ensures var t := Serve(Bound(CrudTable()[4].chain), req, env, cfg);
              t.state.calls == req.calls + [FindById(req.id), Remove(req.id)]
              && (env.remove.Rejected? ==> t.exit == Sent(500, ErrorBody(RemoveFailedMessage)))
              && (env.remove.Resolved? ==>
                    t.exit == Sent(200, Single("Document(s) " + Label(req.verb),
                                               Or(env.remove.value, req.updatedDocument))))
  {
    var chain := [IsIdValid, HandleDELETE, SendResponseToClient];
    assert CrudTable()[4].chain == [Fn(IsIdValid), Fn(HandleDELETE), Send];
    BoundLiteral3(IsIdValid, HandleDELETE, SendResponseToClient);
    var step := (h, r) => Step(h, r, env, cfg);
    var r1 := req.(calls := req.calls + [FindById(req.id)]);
    assert step(IsIdValid, req) == (r1, Continue);
    assert chain[1..] == [HandleDELETE, SendResponseToClient];
    assert Serve(chain, req, env, cfg).state == Serve(chain[1..], r1, env, cfg).state;
    assert Serve(chain, req, env, cfg).exit == Serve(chain[1..], r1, env, cfg).exit;
    DeleteThenSend(r1, env, cfg);
  }

}
