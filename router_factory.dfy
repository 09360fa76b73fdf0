/** The closure-based router factory (routerFactory.js): a fixed route
    table registered on the router, validation of required fields derived
    from the schema, detection of linked paths, and the population and
    projection directives kept in the closure. */
module RouterFactory {
  import opened Values
  import opened Directives
  import opened Middleware
  import opened Schema
  import opened Routing

  /** The middlewares the closure defines. */
  datatype Handler =
    | IsIdValid
    | ValidateParameters
    | ExcludeUniqueFieldsFromPUT
    | HandleGET
    | HandlePOST
    | HandlePUT
    | HandleDELETE
    | LinkCollections

  /** The routes routerFactory registers, in order. */
  function RouteTable(): (t: seq<RouterCall<Handler>>)
    ensures |t| == 6 && t[5] == ErrorHandler
    ensures forall i :: 0 <= i < 5 ==>
              t[i].Registered? && |t[i].chain| > 0
              && (t[i].path == "/:id" <==> t[i].chain[0] == IsIdValid)
    ensures t[1] == Registered("/", POST, [ValidateParameters, HandlePOST, LinkCollections])
    ensures t[3] == Registered("/:id", PUT, [IsIdValid, ValidateParameters, ExcludeUniqueFieldsFromPUT, HandlePUT])
  {
    [ Registered("/", GET, [HandleGET]),
      Registered("/", POST, [ValidateParameters, HandlePOST, LinkCollections]),
      Registered("/:id", GET, [IsIdValid, HandleGET]),
      Registered("/:id", PUT, [IsIdValid, ValidateParameters, ExcludeUniqueFieldsFromPUT, HandlePUT]),
      Registered("/:id", DELETE, [IsIdValid, HandleDELETE]),
      ErrorHandler ]
  }

  // ----- Required paths -----

  /** The number of validators whose `type` is 'required'. */
  function RequiredCount(validators: seq<Validator>): nat {
    if validators == [] then 0
    else RequiredCount(validators[..|validators| - 1])
         + (if validators[|validators| - 1].kind == "required" then 1 else 0)
  }

  function Repeat(name: string, n: nat): seq<string> {
    seq(n, _ => name)
  }

  /** What one schema path pushes onto `requiredPaths`: its name once when
      it has exactly one validator, of whatever kind; once per 'required'
      validator when it has several; nothing when it has none. */
  function Contribution(p: SchemaPath): seq<string> {
    if |p.validators| == 1 then [p.name]
    else if |p.validators| > 1 then Repeat(p.name, RequiredCount(p.validators))
    else []
  }

  /** `requiredPaths` as validateParameters builds it, in schema order. */
  function RequiredOf(schema: seq<SchemaPath>): seq<string> {
    if schema == [] then []
    else RequiredOf(schema[..|schema| - 1]) + Contribution(schema[|schema| - 1])
  }

  /** A path counts as required when it has exactly one validator, or
      several of which one has type 'required'. */
  predicate IsRequired(p: SchemaPath) {
    |p.validators| == 1
    || (|p.validators| > 1 && exists j :: 0 <= j < |p.validators| && p.validators[j].kind == "required")
  }

  lemma {:induction false} RequiredCountPositive(validators: seq<Validator>)
    ensures RequiredCount(validators) > 0 <==>
              exists j :: 0 <= j < |validators| && validators[j].kind == "required"
  {
    if validators != [] {
      var init := validators[..|validators| - 1];
      RequiredCountPositive(init);
      assert forall j :: 0 <= j < |init| ==> init[j] == validators[j];
    }
  }

  /** A name is in `requiredPaths` exactly when some schema path of that
      name is required. */
  lemma {:induction false} RequiredMembership(schema: seq<SchemaPath>, name: string)
    ensures name in RequiredOf(schema) <==>
              exists i :: 0 <= i < |schema| && schema[i].name == name && IsRequired(schema[i])
  {
    if schema != [] {
      var init, last := schema[..|schema| - 1], schema[|schema| - 1];
      RequiredMembership(init, name);
      RequiredCountPositive(last.validators);
      assert forall i :: 0 <= i < |init| ==> init[i] == schema[i];
      assert name in Contribution(last) <==> last.name == name && IsRequired(last) by {
        if |last.validators| > 1 && RequiredCount(last.validators) > 0 {
          assert Contribution(last)[0] == last.name;
        }
      }
    }
  }

  /** validateParameters' nested loops that fill `requiredPaths`. */
  method RequiredPaths(schema: seq<SchemaPath>) returns (requiredPaths: seq<string>)
    ensures requiredPaths == RequiredOf(schema)
  {
    requiredPaths := [];
    for i := 0 to |schema|
      invariant requiredPaths == RequiredOf(schema[..i])
    {
      var p := schema[i];
      assert schema[..i + 1][..i] == schema[..i];
      if |p.validators| == 1 {
        requiredPaths := requiredPaths + [p.name];
      }
      if |p.validators| > 1 {
        for j := 0 to |p.validators|
          invariant requiredPaths == RequiredOf(schema[..i]) + Repeat(p.name, RequiredCount(p.validators[..j]))
        {
          assert p.validators[..j + 1][..j] == p.validators[..j];
          if p.validators[j].kind == "required" {
            requiredPaths := requiredPaths + [p.name];
          }
        }
        assert p.validators[..|p.validators|] == p.validators;
      }
    }
    assert schema[..|schema|] == schema;
  }

  /** Some listed path is not an own key of the parameters. */
  predicate Missing(paths: seq<string>, parameters: map<string, Json>) {
    exists j :: 0 <= j < |paths| && paths[j] !in parameters
  }

  /** areThereMissingPathsInParams: a flag set by a loop over every path. */
  method AreThereMissingPathsInParams(paths: seq<string>, parameters: map<string, Json>)
    returns (missingFields: bool)
    ensures missingFields <==> exists j :: 0 <= j < |paths| && paths[j] !in parameters
  {
    missingFields := false;
    for i := 0 to |paths|
      invariant missingFields <==> exists j :: 0 <= j < i && paths[j] !in parameters
    {
      if paths[i] !in parameters {
        missingFields := true;
      }
    }
  }

  const RequiredFieldsPrefix := "The following field are required: "

  /** What validateParameters decides: continue when no required path is
      missing from the body; otherwise 400 naming every required path,
      present or not, separated by single spaces. */
  function Validation(schema: seq<SchemaPath>, body: map<string, Json>): (o: Outcome)
    ensures o == Continue <==> !Missing(RequiredOf(schema), body)
    ensures o != Continue ==> o == Fail(400, RequiredFieldsPrefix + Join(RequiredOf(schema), " "))
  {
    var requiredPaths := RequiredOf(schema);
    if |requiredPaths| == 0 || !Missing(requiredPaths, body) then Continue
    else Fail(400, RequiredFieldsPrefix + Join(requiredPaths, " "))
  }

  /** validateParameters. */
  method ValidateBody(schema: seq<SchemaPath>, body: map<string, Json>) returns (o: Outcome)
    ensures o == Validation(schema, body)
  {
    var parameters := body;
    var requiredPaths := RequiredPaths(schema);
    var missing := false;
    if |requiredPaths| != 0 {
      missing := AreThereMissingPathsInParams(requiredPaths, parameters);
    }
    if |requiredPaths| == 0 || !missing {
      o := Continue;
    } else {
      o := Fail(400, RequiredFieldsPrefix + Join(requiredPaths, " "));
    }
  }

  /** A body holding one of two required fields is refused with both
      names, not only the missing one. */
  lemma ValidationNamesPresentFields()
    ensures Validation(
              [ SchemaPath("name", [Validator("required")], JUndefined, JUndefined, Constructor("String")),
                SchemaPath("email", [Validator("required")], JUndefined, JUndefined, Constructor("String")) ],
              map["name" := JStr("Ada")])
            == Fail(400, "The following field are required: name email")
  {
    var schema :=
      [ SchemaPath("name", [Validator("required")], JUndefined, JUndefined, Constructor("String")),
        SchemaPath("email", [Validator("required")], JUndefined, JUndefined, Constructor("String")) ];
    assert schema[..1][..0] == [];
    assert schema[..|schema| - 1] == schema[..1];
    assert RequiredOf(schema[..1]) == ["name"];
    assert RequiredOf(schema) == ["name", "email"];
    assert ["name", "email"][1] !in map["name" := JStr("Ada")];
    assert Missing(["name", "email"], map["name" := JStr("Ada")]);
  }

  // ----- Linked paths -----

  /** JavaScript truthiness of a `type` option. */
  predicate TypeTruthy(t: TypeOption) {
    match t
    case TypeName(n) => n != ""
    case _ => true
  }

  /** `options.type[0]` is truthy: a constructor has no element 0, a type
      name gives its first character, an array its first element. */
  predicate FirstElementTruthy(t: TypeOption) {
    match t
    case Constructor(_) => false
    case TypeName(n) => n != ""
    case ArrayOf(elements) => |elements| > 0 && TypeTruthy(elements[0])
  }

  /** `options.ref || options.type[0]`. */
  predicate Linked(p: SchemaPath) {
    Truthy(p.ref) || FirstElementTruthy(p.typ)
  }

  /** The linked paths, in schema order. */
  function LinkedPaths(schema: seq<SchemaPath>): seq<string> {
    if schema == [] then []
    else LinkedPaths(schema[..|schema| - 1])
         + (if Linked(schema[|schema| - 1]) then [schema[|schema| - 1].name] else [])
  }

  /** A name is listed exactly when some path of that name is linked. */
  lemma {:induction false} LinkedMembership(schema: seq<SchemaPath>, name: string)
    ensures name in LinkedPaths(schema) <==>
              exists i :: 0 <= i < |schema| && schema[i].name == name && Linked(schema[i])
  {
    if schema != [] {
      var init := schema[..|schema| - 1];
      LinkedMembership(init, name);
      assert forall i :: 0 <= i < |init| ==> init[i] == schema[i];
    }
  }

  /** hasLinkedPaths: push the name of every linked path, then return
      `[linkedPath.length > 0, linkedPath]`. The document it is given is
      not used. */
  method HasLinkedPaths(schema: seq<SchemaPath>) returns (any: bool, linkedPath: seq<string>)
    ensures linkedPath == LinkedPaths(schema)
    ensures any <==> exists i :: 0 <= i < |schema| && Linked(schema[i])
  {
    linkedPath := [];
    for i := 0 to |schema|
      invariant linkedPath == LinkedPaths(schema[..i])
    {
      assert schema[..i + 1][..i] == schema[..i];
      if Linked(schema[i]) {
        linkedPath := linkedPath + [schema[i].name];
      }
    }
    assert schema[..|schema|] == schema;
    any := |linkedPath| > 0;
    if any {
      LinkedMembership(schema, linkedPath[0]);
    } else if exists i :: 0 <= i < |schema| && Linked(schema[i]) {
      var i :| 0 <= i < |schema| && Linked(schema[i]);
      LinkedMembership(schema, schema[i].name);
    }
  }

  function Strings(names: seq<string>): (r: seq<Json>)
    ensures |r| == |names| && forall i :: 0 <= i < |names| ==> r[i] == JStr(names[i])
  {
    seq(|names|, i requires 0 <= i < |names| => JStr(names[i]))
  }

  /** linkCollections: 200 `{Document: document}` when the schema has no
      linked path, otherwise 300 `{Entries: [true, linkedPaths]}` (the
      whole pair hasLinkedPaths returns), whatever the document. */
  function LinkCollectionsReply(document: Json, schema: seq<SchemaPath>): (o: Outcome)
    ensures o.Respond?
    ensures o.status == 200 <==> LinkedPaths(schema) == []
    ensures o.status == 200 ==> o.body == Single("Document", document)
    ensures o.status != 200 ==>
              o == Respond(300, Single("Entries", JArr([JBool(true), JArr(Strings(LinkedPaths(schema)))])))
  {
    var linked := LinkedPaths(schema);
    if |linked| == 0 then Respond(200, Single("Document", document))
    else Respond(300, Single("Entries", JArr([JBool(true), JArr(Strings(linked))])))
  }

  // ----- The closure -----

  /** The closure state the middlewares read when a request comes. */
  datatype Config = Config(schema: seq<SchemaPath>, toPopulate: seq<Entry>, projection: Json)

  /** One call of routerFactory: it registers the route table, and the
      object it returns updates the closure's directives. */
  class Factory {
    const router: Router<Handler>
    const schema: seq<SchemaPath>
    var toPopulate: seq<Entry>
    var projection: Json

    constructor (router: Router<Handler>, schema: seq<SchemaPath>)
      modifies router
      ensures this.router == router && this.schema == schema
      ensures toPopulate == [] && projection == JUndefined
      ensures router.log == old(router.log) + RouteTable()
    {
      this.router := router;
      this.schema := schema;
      toPopulate := [];
      projection := JUndefined;
      new;
      router.Route("/", GET, [HandleGET]);
      router.Route("/", POST, [ValidateParameters, HandlePOST, LinkCollections]);
      router.Route("/:id", GET, [IsIdValid, HandleGET]);
      router.Route("/:id", PUT, [IsIdValid, ValidateParameters, ExcludeUniqueFieldsFromPUT, HandlePUT]);
      router.Route("/:id", DELETE, [IsIdValid, HandleDELETE]);
      router.Use();
    }

    /** The returned setProjection: overwrite the closure's projection. */
    method SetProjection(projections: Json)
      modifies this
      ensures projection == projections && toPopulate == old(toPopulate)
    {
      projection := projections;
    }

    /** The returned setPopulate: push the normal form of each argument
        onto the closure's list; a null argument throws, leaving what was
        pushed before it. */
    method SetPopulate(args: seq<Json>) returns (completed: bool)
      modifies this
      ensures completed <==> JNull !in args
      ensures toPopulate == old(toPopulate) + Populated(args).entries
      ensures projection == old(projection)
    {
      completed := true;
      var i := 0;
      while i < |args|
        invariant 0 <= i <= |args|
        invariant !Populated(args[..i]).thrown
        invariant toPopulate == old(toPopulate) + Populated(args[..i]).entries
        invariant projection == old(projection)
      {
        PopulatedAppend(args[..i], [args[i]]);
        assert args[..i + 1] == args[..i] + [args[i]];
        match Normalize(args[i]) {
          case Push(e) =>
            toPopulate := toPopulate + [e];
          case Skip =>
          case Throw =>
            PopulatedAppend(args[..i + 1], args[i + 1..]);
            assert args[..i + 1] + args[i + 1..] == args;
            completed := false;
            return;
        }
        i := i + 1;
      }
      assert args[..i] == args;
    }
  }

  // ----- Serving a request -----

  const NotFoundMessage := "The friend with the specified ID does not exist."
  const ReadFailedMessage := "The information could not be retrieved."
  const RemoveFailedMessage := "The friend could not be removed"
  /** The TypeError thrown by `const { ...toUpdate } = req.toUpdate` when
      no earlier middleware set `req.toUpdate`. */
  const DestructureFailedMessage := "Cannot destructure 'req.toUpdate' as it is undefined."

  /** The replies of the persistence layer to this request. */
  datatype Env = Env(findById: Reply, find: Reply, save: Reply, update: Reply, remove: Reply)

  /** One middleware of the closure applied to a request. Each issues at
      most one persistence call and leaves the method, id and body alone.
      handleGET, handlePUT and handleDELETE answer 200 with the result of
      their call themselves, and linkCollections answers 200 or 300; a
      failure is handed on as the database's own error (POST, PUT), as
      createError(500, …) (DELETE, list read) or as the bare 500 of
      `next(500, …)` (read by id). handlePUT destructures `req.toUpdate`,
      which throws when it is unset, before any update is issued. */
  function Step(h: Handler, req: Request, env: Env, cfg: Config): (r: (Request, Outcome))
    ensures req.calls <= r.0.calls && |r.0.calls| <= |req.calls| + 1
    ensures r.0.verb == req.verb && r.0.id == req.id && r.0.body == req.body
    ensures r.1.Respond? ==>
              (h == HandleGET || h == HandlePUT || h == HandleDELETE || h == LinkCollections)
              && (r.1.status == 200 || (h == LinkCollections && r.1.status == 300))
    ensures h == HandleGET ==>
              r.0.calls == req.calls + [Find(ReadQuery(req.id, cfg.toPopulate, cfg.projection))]
              && (env.find.Resolved? ==> r.1 == Respond(200, env.find.value))
              && (env.find.Rejected? ==>
                    r.1 == if Truthy(req.id) then Forward(Bare(500)) else Fail(500, ReadFailedMessage))
    ensures h == HandlePOST ==>
              r.0.calls == req.calls + [Save(req.body)]
              && (env.save.Resolved? ==> r.1 == Continue && r.0.newDocument == env.save.value)
              && (env.save.Rejected? ==> r.1 == Forward(env.save.error))
    ensures h == HandlePUT && req.toUpdate.None? ==>
              r == (req, Forward(Err(None, DestructureFailedMessage)))
    ensures h == HandlePUT && req.toUpdate.Some? ==>
              r.0.calls == req.calls + [Update(req.id, req.toUpdate.value)]
              && (env.update.Resolved? ==> r.1 == Respond(200, env.update.value))
              && (env.update.Rejected? ==> r.1 == Forward(env.update.error))
    ensures h == HandleDELETE ==>
              r.0.calls == req.calls + [Remove(req.id)]
              && (env.remove.Resolved? ==> r.1 == Respond(200, env.remove.value))
              && (env.remove.Rejected? ==> r.1 == Fail(500, RemoveFailedMessage))
  {
    match h
    case IsIdValid =>
      var req' := if Truthy(req.id) then req.(calls := req.calls + [FindById(req.id)]) else req;
      (req', IdCheck(req.id, env.findById, NotFoundMessage))
    case ValidateParameters =>
      (req, Validation(cfg.schema, req.body))
    case ExcludeUniqueFieldsFromPUT =>
      (req.(toUpdate := Some(WithoutUnique(cfg.schema, req.body))), Continue)
    case HandleGET =>
      var req' := req.(calls := req.calls + [Find(ReadQuery(req.id, cfg.toPopulate, cfg.projection))]);
      (match env.find
       case Rejected(_) =>
         (req', if Truthy(req.id) then Forward(Bare(500)) else Fail(500, ReadFailedMessage))
       case Resolved(docs) => (req', Respond(200, docs)))
    case HandlePOST =>
      var req' := req.(calls := req.calls + [Save(req.body)]);
      (match env.save
       case Rejected(e) => (req', Forward(e))
       case Resolved(doc) => (req'.(newDocument := doc), Continue))
    case HandlePUT =>
      if req.toUpdate.None? then (req, Forward(Err(None, DestructureFailedMessage)))
      else
        var req' := req.(calls := req.calls + [Update(req.id, req.toUpdate.value)]);
        (match env.update
         case Rejected(e) => (req', Forward(e))
         case Resolved(doc) => (req', Respond(200, doc)))
    case HandleDELETE =>
      var req' := req.(calls := req.calls + [Remove(req.id)]);
      (match env.remove
       case Rejected(_) => (req', Fail(500, RemoveFailedMessage))
       case Resolved(doc) => (req', Respond(200, doc)))
    case LinkCollections =>
      (req, LinkCollectionsReply(Or(req.newDocument, req.updatedDocument), cfg.schema))
  }

  /** Serve a request with a registered chain. */
  function Serve(chain: seq<Handler>, req: Request, env: Env, cfg: Config): Trace<Handler, Request> {
    Run(chain, req, (h, r) => Step(h, r, env, cfg))
  }

  /** A request for an id the store does not hold stops at isIdValid with
      404: no other middleware runs and only the lookup is issued. */
  lemma UnknownIdIsNotFound(chain: seq<Handler>, req: Request, env: Env, cfg: Config)
    requires chain != [] && chain[0] == IsIdValid
    requires Truthy(req.id) && env.findById.Resolved? && !Truthy(env.findById.value)
    ensures Serve(chain, req, env, cfg).ran == [IsIdValid]
    ensures Serve(chain, req, env, cfg).state.calls == req.calls + [FindById(req.id)]
    ensures Serve(chain, req, env, cfg).exit == Sent(404, ErrorBody(NotFoundMessage))
  {
    assert Step(IsIdValid, req, env, cfg).1 == Fail(404, NotFoundMessage);
  }

  /** A POST missing a required field is answered 400 naming all required
      paths, before anything is saved. */
  lemma PostMissingFieldIsBadRequest(req: Request, env: Env, cfg: Config)
    requires Missing(RequiredOf(cfg.schema), req.body)
    ensures var t := Serve(RouteTable()[1].chain, req, env, cfg);
              t.ran == [ValidateParameters] && t.state.calls == req.calls
              && t.exit == Sent(400, ErrorBody(RequiredFieldsPrefix + Join(RequiredOf(cfg.schema), " ")))
  {
    assert Step(ValidateParameters, req, env, cfg).1 ==
           Fail(400, RequiredFieldsPrefix + Join(RequiredOf(cfg.schema), " "));
  }

  /** A valid POST that is saved is answered by linkCollections: 200 with
      the new document, or 300 with the linked paths. */
  lemma SavedPostIsLinked(req: Request, env: Env, cfg: Config)
    requires Validation(cfg.schema, req.body) == Continue
    requires env.save.Resolved?
    ensures var t := Serve(RouteTable()[1].chain, req, env, cfg);
              t.ran == [ValidateParameters, HandlePOST, LinkCollections]
              && t.state.calls == req.calls + [Save(req.body)]
              && t.exit.Sent?
              && (t.exit.status == 200 <==> LinkedPaths(cfg.schema) == [])
              && (LinkedPaths(cfg.schema) == [] ==>
                    t.exit.body == Single("Document", Or(env.save.value, req.updatedDocument)))
  {
    var step := (h, r) => Step(h, r, env, cfg);
    var chain := [ValidateParameters, HandlePOST, LinkCollections];
    var r1 := req.(calls := req.calls + [Save(req.body)], newDocument := env.save.value);
    assert step(ValidateParameters, req) == (req, Continue);
    assert step(HandlePOST, req) == (r1, Continue);
    assert chain[1..] == [HandlePOST, LinkCollections];
    assert chain[1..][1..] == [LinkCollections];
    var o := LinkCollectionsReply(Or(r1.newDocument, r1.updatedDocument), cfg.schema);
    assert step(LinkCollections, r1) == (r1, o);
    assert Run([LinkCollections], r1, step) == Trace([LinkCollections], r1, Sent(o.status, o.body));
  }

  /** PUT never sends a unique-flagged field to the update: every update
      the chain issues carries the body without them. */
  lemma PutNeverUpdatesUniqueFields(req: Request, env: Env, cfg: Config)
    ensures var t := Serve(RouteTable()[3].chain, req, env, cfg);
              |t.state.calls| >= |req.calls| && t.state.calls[..|req.calls|] == req.calls
              && forall c :: c in t.state.calls[|req.calls|..] ==>
                   c.Update? ==> c.patch == WithoutUnique(cfg.schema, req.body)
                                 && c.patch.Keys !! UniquePaths(cfg.schema)
  {
    var step := (h, r) => Step(h, r, env, cfg);
    var chain := [IsIdValid, ValidateParameters, ExcludeUniqueFieldsFromPUT, HandlePUT];
    assert chain[1..] == [ValidateParameters, ExcludeUniqueFieldsFromPUT, HandlePUT];
    assert chain[1..][1..] == [ExcludeUniqueFieldsFromPUT, HandlePUT];
    assert chain[1..][1..][1..] == [HandlePUT];
    var patch := WithoutUnique(cfg.schema, req.body);
    var (r1, o1) := step(IsIdValid, req);
    assert r1.calls == req.calls || r1.calls == req.calls + [FindById(req.id)];
    assert r1.body == req.body;
    if o1.Continue? {
      var (r2, o2) := step(ValidateParameters, r1);
      assert r2 == r1;
      if o2.Continue? {
        var r3 := r1.(toUpdate := Some(patch));
        assert step(ExcludeUniqueFieldsFromPUT, r2) == (r3, Continue);
        var (r4, o4) := step(HandlePUT, r3);
        assert r4.calls == r1.calls + [Update(req.id, patch)];
        assert Run([HandlePUT], r3, step).state == r4;
      }
    }
  }

  /** A failed read by id reaches handleError as a bare 500, which has no
      `status`, so handleError does not answer it. */
  lemma ReadByIdErrorIsNotAnswered(req: Request, env: Env, cfg: Config)
    requires Truthy(req.id) && env.findById.Resolved? && Truthy(env.findById.value)
    requires env.find.Rejected?
    ensures var t := Serve(RouteTable()[2].chain, req, env, cfg);
              t.ran == [IsIdValid, HandleGET] && t.exit == Unhandled(Bare(500))
  {
    var step := (h, r) => Step(h, r, env, cfg);
    var r1 := req.(calls := req.calls + [FindById(req.id)]);
    assert step(IsIdValid, req) == (r1, Continue);
    assert step(HandleGET, r1).1 == Forward(Bare(500));
    assert [IsIdValid, HandleGET][1..] == [HandleGET];
  }

  /** DELETE of a known id removes it and answers itself: 500 "The friend
      could not be removed" on failure, otherwise 200 with the removed
      document. */
  lemma DeleteRemoves(req: Request, env: Env, cfg: Config)
    requires Truthy(req.id) && env.findById.Resolved? && Truthy(env.findById.value)
    ensures var t := Serve(RouteTable()[4].chain, req, env, cfg);
              t.ran == [IsIdValid, HandleDELETE]
              && t.state.calls == req.calls + [FindById(req.id), Remove(req.id)]
              && (env.remove.Rejected? ==> t.exit == Sent(500, ErrorBody(RemoveFailedMessage)))
              && (env.remove.Resolved? ==> t.exit == Sent(200, env.remove.value))
  {
    var step := (h, r) => Step(h, r, env, cfg);
    var r1 := req.(calls := req.calls + [FindById(req.id)]);
    assert step(IsIdValid, req) == (r1, Continue);
    assert [IsIdValid, HandleDELETE][1..] == [HandleDELETE];
    assert step(HandleDELETE, r1).0.calls == r1.calls + [Remove(req.id)];
  }

  /** handlePUT on a request no middleware gave `req.toUpdate` throws before
      any update is issued; the TypeError has no status, so handleError
      passes it on unanswered. The route table always runs
      excludeUniqueFieldsFromPUT first, so its PUT route never meets this. */
  lemma PutWithoutPayloadIsNotAnswered(req: Request, env: Env, cfg: Config)
    requires req.toUpdate.None?
    ensures Serve([HandlePUT], req, env, cfg) ==
              Trace([HandlePUT], req, Unhandled(Err(None, DestructureFailedMessage)))
    ensures forall i :: 0 <= i < |RouteTable()| && RouteTable()[i].Registered? && HandlePUT in RouteTable()[i].chain ==>
              ExcludeUniqueFieldsFromPUT in RouteTable()[i].chain
  {
    assert Step(HandlePUT, req, env, cfg) == (req, Forward(Err(None, DestructureFailedMessage)));
  }
}
