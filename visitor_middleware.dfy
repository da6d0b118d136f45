/**
 * `blogVisitorMiddleware` (backend/src/middleware/visitor.ts): it registers a callback for the
 * response's `finish` event and hands the request on with `next()`. The callback works out the
 * client address and the visitor id and, on a blog-scoped route, fires trackVisitor without
 * waiting for it.
 */
module VisitorMiddleware {
  import opened Wrappers
  import opened Text
  import opened VisitTracking

  /** The parts of an Express request the middleware reads. */
  datatype Request = Request(
    blogId: Option<string>,         // req.params.blogId
    cookie: Option<string>,         // req.headers.cookie
    forwardedFor: Option<string>,   // req.headers['x-forwarded-for']
    remoteAddress: Option<string>)  // req.socket.remoteAddress

  /** JavaScript truthiness of an optional string: present and not empty. */
  predicate Truthy(s: Option<string>) {
    s.Some? && s.value != ""
  }

  /** `x-forwarded-for || remoteAddress || 'unknown'`. */
  function ClientIp(req: Request): (ip: string)
    ensures Truthy(req.forwardedFor) ==> ip == req.forwardedFor.value
    ensures !Truthy(req.forwardedFor) && Truthy(req.remoteAddress) ==> ip == req.remoteAddress.value
    ensures !Truthy(req.forwardedFor) && !Truthy(req.remoteAddress) ==> ip == "unknown"
    ensures ip != []
  {
    if Truthy(req.forwardedFor) then req.forwardedFor.value
    else if Truthy(req.remoteAddress) then req.remoteAddress.value
    else "unknown"
  }

  /** One `trackVisitor(blogId, visitorId)` call. */
  datatype TrackCall = TrackCall(blogId: string, visitorId: string)

  /** What the `finish` callback asks of the tracker: one call when the route has a blog id, none otherwise. */
  function OnFinish(req: Request): (call: Option<TrackCall>)
    ensures call.Some? <==> Truthy(req.blogId)
    ensures call.Some? ==> call.value.blogId == req.blogId.value
    ensures call.Some? ==> call.value.visitorId == GetVisitorId(req.cookie, ClientIp(req))
    ensures call.Some? ==> call.value.visitorId != []
  {
    var visitorId := GetVisitorId(req.cookie, ClientIp(req));
    if Truthy(req.blogId) then Some(TrackCall(req.blogId.value, visitorId)) else None
  }

  /** Without a visitor cookie the visitor is the client address, never the empty string. */
  lemma AnonymousVisitorIsClientIp(req: Request)
    requires req.cookie.None? || FirstMatch(req.cookie.value, VisitorCookieKey, 0, false).None?
    requires Truthy(req.blogId)
    ensures OnFinish(req).Some? && OnFinish(req).value.visitorId == ClientIp(req)
    ensures !Truthy(req.forwardedFor) && !Truthy(req.remoteAddress) ==> OnFinish(req).value.visitorId == "unknown"
  {
  }

  /**
   * One request through the middleware: the callback is registered, `next()` is called, and
   * once the response has finished the callback runs against the shared cache. `fault` is the
   * cache call that rejects, if any; trackVisitor catches it, so it never reaches the response
   * or stops `next()`.
   */
  method BlogVisitorMiddleware(cache: VisitCache, req: Request, today: string, fault: Fault)
    returns (nextCalls: nat, trackCalls: nat)
    modifies cache
    ensures nextCalls == 1
    ensures trackCalls == if Truthy(req.blogId) then 1 else 0
    ensures Truthy(req.blogId) ==>
      cache.State() == Track(old(cache.State()), req.blogId.value, GetVisitorId(req.cookie, ClientIp(req)), today, fault)
    ensures !Truthy(req.blogId) ==> cache.State() == old(cache.State())
  {
    nextCalls, trackCalls := 0, 0;
    // res.on('finish', ...) only registers the callback; next() runs straight away
    nextCalls := nextCalls + 1;
    // the response has been sent: the finish callback runs
    var call := OnFinish(req);
    if call.Some? {
      cache.TrackVisitor(call.value.blogId, call.value.visitorId, today, fault);
      trackCalls := trackCalls + 1;
    }
  }
}
