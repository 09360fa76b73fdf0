/** The Express router as the factories use it: they register a chain of
    middlewares per path and verb, and an error middleware. */
module Routing {

  datatype Verb = GET | POST | PUT | DELETE

  /** One registration made on the router: `router.route(path).<verb>(...chain)`
      or `router.use(handleError)`. */
  datatype RouterCall<H> = Registered(path: string, verb: Verb, chain: seq<H>) | ErrorHandler

  /** The router, reduced to the registrations made on it, in order. */
  class Router<H> {
    var log: seq<RouterCall<H>>

    constructor ()
      ensures log == []
    {
      log := [];
    }

    /** `route(path).get/post/put/delete(...chain)`. */
    method Route(path: string, verb: Verb, chain: seq<H>)
      modifies this
      ensures log == old(log) + [Registered(path, verb, chain)]
    {
      log := log + [Registered(path, verb, chain)];
    }

    /** `use(handleError)`. */
    method Use()
      modifies this
      ensures log == old(log) + [ErrorHandler]
    {
      log := log + [ErrorHandler];
    }
  }
}
