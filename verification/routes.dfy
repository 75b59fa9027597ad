/**
 * The HTTP routing of backend/internal/server/routes.go.
 *
 * A handler is a value: an endpoint (a handler method of some package, or
 * one of the method-dispatch closures of `Router`, named) wrapped by zero or
 * more middlewares, each named by what it is (`logging`, `cors`, `jwt`,
 * `auth`). What a middleware does to a request is not part of this model;
 * what is modelled is which middlewares wrap which endpoint and in which
 * order. Go's `http.ServeMux` is reduced to its table of registered
 * patterns, and its panic on a pattern registered twice (or empty) to a
 * `false` outcome. Go's map iteration order in `Register` is a parameter.
 */
module Routes {
  /** An `http.Handler`: an endpoint, or a middleware around a handler. */
  datatype Handler = Endpoint(name: string) | Wrapped(middleware: string, inner: Handler)

  const Logging := "logging"
  const Cors := "cors"
  const Jwt := "jwt"
  const Auth := "auth"

  /** The middlewares a request passes through, outermost first. */
  function Layers(h: Handler): seq<string>
  {
    match h
    case Endpoint(_) => []
    case Wrapped(m, inner) => [m] + Layers(inner)
  }

  /** The endpoint a request finally reaches. */
  function Target(h: Handler): string
  {
    match h
    case Endpoint(n) => n
    case Wrapped(_, inner) => Target(inner)
  }

  /** A sequence in reverse order. */
  function Reversed(s: seq<string>): (r: seq<string>)
    ensures |r| == |s| && forall i :: 0 <= i < |s| ==> r[i] == s[|s| - 1 - i]
  {
    if s == [] then [] else [s[|s| - 1]] + Reversed(s[..|s| - 1])
  }

  /**
   * `middlewareChain(m1, ..., mn)` applied to `final`: each middleware in
   * turn wraps what the previous ones built.
   */
  function Chain(middlewares: seq<string>, final: Handler): (h: Handler)
    ensures middlewares == [] ==> h == final
    ensures middlewares != [] ==> h.Wrapped? && h.middleware == middlewares[|middlewares| - 1]
    ensures |Layers(h)| == |middlewares| + |Layers(final)|
  {
    if middlewares == [] then final
    else Wrapped(middlewares[|middlewares| - 1], Chain(middlewares[..|middlewares| - 1], final))
  }

  /**
   * The chain wraps without replacing: the request passes the listed
   * middlewares last-listed first, then whatever `final` already had, and
   * reaches `final`'s endpoint; an empty chain is the identity.
   */
  lemma {:induction false} ChainLayers(middlewares: seq<string>, final: Handler)
    ensures Layers(Chain(middlewares, final)) == Reversed(middlewares) + Layers(final)
    ensures Target(Chain(middlewares, final)) == Target(final)
    ensures middlewares == [] ==> Chain(middlewares, final) == final
  {
    if middlewares != [] {
      ChainLayers(middlewares[..|middlewares| - 1], final);
    }
  }

  /** Chaining `a` and then `b` is chaining `a + b`. */
  lemma {:induction false} ChainAppend(a: seq<string>, b: seq<string>, final: Handler)
    ensures Chain(a + b, final) == Chain(b, Chain(a, final))
  {
    if b == [] {
      assert a + b == a;
    } else {
      assert (a + b)[..|a + b| - 1] == a + b[..|b| - 1];
      ChainAppend(a, b[..|b| - 1], final);
    }
  }

  /** The loop of `middlewareChain`'s returned function, reassigning `final` once per middleware. */
  method ApplyChain(middlewares: seq<string>, final: Handler) returns (h: Handler)
    ensures h == Chain(middlewares, final)
    ensures Layers(h) == Reversed(middlewares) + Layers(final) && Target(h) == Target(final)
  {
    h := final;
    var i := 0;
    while i < |middlewares|
      invariant 0 <= i <= |middlewares|
      invariant h == Chain(middlewares[..i], final)
    {
      assert middlewares[..i + 1][..i] == middlewares[..i];
      h := Wrapped(middlewares[i], h);
      i := i + 1;
    }
    assert middlewares[..i] == middlewares;
    ChainLayers(middlewares, final);
  }

  /** `publicRouteMiddleware`. */
  const PublicChain: seq<string> := [Logging, Cors]
  /** `authenticatedRouteMiddleware`. */
  const AuthenticatedChain: seq<string> := [Cors, Jwt, Auth, Logging]
  /** `wsMiddleware`. */
  const WsChain: seq<string> := [Cors, Jwt]

  /**
   * The order the three chains impose: a public request passes CORS and
   * then logging; an authenticated one logging, `auth`, `jwt` and then
   * CORS; a WebSocket upgrade `jwt` and then CORS.
   */
  lemma ChainOrders(h: Handler)
    ensures Layers(Chain(PublicChain, h)) == [Cors, Logging] + Layers(h)
    ensures Layers(Chain(AuthenticatedChain, h)) == [Logging, Auth, Jwt, Cors] + Layers(h)
    ensures Layers(Chain(WsChain, h)) == [Jwt, Cors] + Layers(h)
  {
    ChainLayers(PublicChain, h);
    ChainLayers(AuthenticatedChain, h);
    ChainLayers(WsChain, h);
    assert Reversed(PublicChain) == [Cors, Logging];
    assert Reversed(AuthenticatedChain) == [Logging, Auth, Jwt, Cors];
    assert Reversed(WsChain) == [Jwt, Cors];
  }

  /** The concatenation with a fixed prefix tells its suffixes apart. */
  lemma PrefixInjective(prefix: string, p: string, q: string)
    ensures prefix + p == prefix + q ==> p == q
  {
    if prefix + p == prefix + q {
      assert p == (prefix + p)[|prefix|..];
      assert q == (prefix + q)[|prefix|..];
    }
  }

  /** What registering the routes `ps` of a group adds to the mux: each under `prefix + pattern`, wrapped by the chain. */
  function Mounted(prefix: string, middlewares: seq<string>, routes: map<string, Handler>, ps: seq<string>)
    : (m: map<string, Handler>)
    requires forall p :: p in ps ==> p in routes
    ensures forall full :: full in m <==> exists p :: p in ps && full == prefix + p
    ensures forall p :: p in ps ==> m[prefix + p] == Chain(middlewares, routes[p])
  {
    if ps == [] then map[]
    else
      var last := ps[|ps| - 1];
      var m := Mounted(prefix, middlewares, routes, ps[..|ps| - 1]);
      assert forall p :: p in ps && p != last ==> p in ps[..|ps| - 1] by {
        forall p | p in ps && p != last ensures p in ps[..|ps| - 1] {
          var j :| 0 <= j < |ps| && ps[j] == p;
          assert ps[..|ps| - 1][j] == p;
        }
      }
      forall p | p in ps && p != last ensures prefix + p != prefix + last {
        PrefixInjective(prefix, p, last);
      }
      m[prefix + last := Chain(middlewares, routes[last])]
  }

  /** A sequence without repetitions. */
  predicate Distinct(s: seq<string>)
  {
    forall i, j :: 0 <= i < j < |s| ==> s[i] != s[j]
  }

  /** Mounting one more, not yet visited, route adds one new full pattern. */
  lemma MountedStep(prefix: string, middlewares: seq<string>, routes: map<string, Handler>, order: seq<string>, i: nat)
    requires Distinct(order) && (forall p :: p in order ==> p in routes) && i < |order|
    ensures prefix + order[i] !in Mounted(prefix, middlewares, routes, order[..i])
    ensures Mounted(prefix, middlewares, routes, order[..i + 1])
            == Mounted(prefix, middlewares, routes, order[..i])[prefix + order[i] := Chain(middlewares, routes[order[i]])]
  {
    assert order[..i + 1][..i] == order[..i];
    forall p | p in order[..i] ensures prefix + p != prefix + order[i] {
      var j :| 0 <= j < i && order[..i][j] == p;
      assert order[j] == p;
      PrefixInjective(prefix, p, order[i]);
    }
  }

  /** Registering on top of a union updates its right operand. */
  lemma UnionUpdate(a: map<string, Handler>, b: map<string, Handler>, k: string, v: Handler)
    ensures (a + b)[k := v] == a + b[k := v]
  {
    assert ((a + b)[k := v]).Keys == (a + b[k := v]).Keys;
  }

  /** Go's `http.ServeMux`, as the table of its registered patterns. */
  class Mux {
    var table: map<string, Handler>

    /** `http.NewServeMux()`. */
    constructor ()
      ensures table == map[]
    {
      table := map[];
    }

    /** `mux.Handle`: refuses (Go panics) an empty pattern or one already registered; otherwise registers it. */
    method Handle(pattern: string, h: Handler) returns (ok: bool)
      modifies this
      ensures ok <==> pattern != "" && pattern !in old(table)
      ensures table == if ok then old(table)[pattern := h] else old(table)
    {
      if pattern == "" || pattern in table {
        return false;
      }
      table := table[pattern := h];
      return true;
    }
  }

  /** `RouteGroup`: a path prefix, the middleware chain of the group, and the routes added so far. */
  class RouteGroup {
    const prefix: string
    const middlewares: seq<string>
    var routes: map<string, Handler>

    /** `NewRouteGroup`. */
    constructor (prefix: string, middlewares: seq<string>)
      ensures this.prefix == prefix && this.middlewares == middlewares && routes == map[]
    {
      this.prefix := prefix;
      this.middlewares := middlewares;
      routes := map[];
    }

    /** `Handle` (and `HandleFunc`): stores the handler under the pattern, replacing any earlier one. */
    method Handle(pattern: string, h: Handler)
      modifies this
      ensures routes == old(routes)[pattern := h]
      ensures pattern in routes && routes[pattern] == h
      ensures forall p :: p != pattern ==> (p in routes <==> p in old(routes))
    {
      routes := routes[pattern := h];
    }

    /**
     * `Register`, visiting the patterns in `order` (Go's map order, each
     * key once): every route is mounted under `prefix + pattern`, wrapped by
     * the group's chain, unless some full pattern is empty or already taken
     * — then the mux panics at the first such route.
     */
    method Register(mux: Mux, order: seq<string>) returns (ok: bool)
      requires Distinct(order) && forall p :: p in order <==> p in routes
      modifies mux
      ensures ok <==> forall p :: p in routes ==> prefix + p != "" && prefix + p !in old(mux.table)
      ensures ok ==> mux.table == old(mux.table) + Mounted(prefix, middlewares, routes, order)
    {
      var i := 0;
      while i < |order|
        invariant 0 <= i <= |order|
        invariant forall j :: 0 <= j < i ==> prefix + order[j] != "" && prefix + order[j] !in old(mux.table)
        invariant mux.table == old(mux.table) + Mounted(prefix, middlewares, routes, order[..i])
      {
        var p := order[i];
        MountedStep(prefix, middlewares, routes, order, i);
        var wrapped := ApplyChain(middlewares, routes[p]);
        UnionUpdate(old(mux.table), Mounted(prefix, middlewares, routes, order[..i]), prefix + p, wrapped);
        ok := mux.Handle(prefix + p, wrapped);
        if !ok {
          assert prefix + p == "" || prefix + p in old(mux.table);
          return false;
        }
        i := i + 1;
      }
      assert order[..i] == order;
      forall p | p in routes ensures prefix + p != "" && prefix + p !in old(mux.table) {
        var j :| 0 <= j < |order| && order[j] == p;
      }
      return true;
    }
  }

  /** What a dispatch closure does: call a handler, or answer itself with a status and a body. */
  datatype Dispatch = Call(handler: string) | Answer(status: int, body: string, json: bool)

  const MethodNotAllowed := 405

  /** `http.Error(w, "Method not allowed", 405)`: plain text, with the newline `http.Error` appends. */
  const PlainNotAllowed := Answer(MethodNotAllowed, "Method not allowed\n", false)

  /** `/health`: 200 "OK" for GET, 405 for anything else. */
  function Health(verb: string): (d: Dispatch)
    ensures d.Answer?
    ensures d.status == 200 <==> verb == "GET"
    ensures verb == "GET" ==> d.body == "OK"
    ensures verb != "GET" ==> d == PlainNotAllowed
  {
    if verb != "GET" then PlainNotAllowed else Answer(200, "OK", false)
  }

  /** `/api/posts`: create, feed or delete by method. */
  function PostsRoot(verb: string): (d: Dispatch)
    ensures d.Call? <==> verb in {"POST", "GET", "DELETE"}
    ensures d.Call? ==> d.handler == (if verb == "POST" then "CreatePost"
                                      else if verb == "GET" then "GetFeedPosts" else "DeletePost")
    ensures d.Answer? ==> d == PlainNotAllowed
  {
    match verb
    case "POST" => Call("CreatePost")
    case "GET" => Call("GetFeedPosts")
    case "DELETE" => Call("DeletePost")
    case _ => PlainNotAllowed
  }

  /** `/api/groups`: a GET reads one group when an `id` query is given and all groups otherwise. */
  function GroupsRoot(verb: string, idQuery: string): (d: Dispatch)
    ensures d.Call? <==> verb in {"POST", "GET", "PUT", "DELETE"}
    ensures verb == "GET" ==> d == Call(if idQuery != "" then "GetGroup" else "GetAllGroups")
    ensures verb == "POST" ==> d == Call("CreateGroup")
    ensures verb == "PUT" ==> d == Call("UpdateGroup")
    ensures verb == "DELETE" ==> d == Call("DeleteGroup")
    ensures d.Answer? ==> d == PlainNotAllowed
  {
    match verb
    case "POST" => Call("CreateGroup")
    case "GET" => if idQuery != "" then Call("GetGroup") else Call("GetAllGroups")
    case "PUT" => Call("UpdateGroup")
    case "DELETE" => Call("DeleteGroup")
    case _ => PlainNotAllowed
  }

  /** `/api/groups/members`: GET only. */
  function GroupMembers(verb: string): (d: Dispatch)
    ensures d.Call? <==> verb == "GET"
    ensures d.Call? ==> d.handler == "GetGroupMembers"
    ensures d.Answer? ==> d == PlainNotAllowed
  {
    if verb == "GET" then Call("GetGroupMembers") else PlainNotAllowed
  }

  /** `/api/groups/posts`: create, list or delete group posts by method. */
  function GroupPosts(verb: string): (d: Dispatch)
    ensures d.Call? <==> verb in {"POST", "GET", "DELETE"}
    ensures d.Call? ==> d.handler == (if verb == "POST" then "CreateGroupPost"
                                      else if verb == "GET" then "GetGroupPosts" else "DeleteGroupPost")
    ensures d.Answer? ==> d == PlainNotAllowed
  {
    match verb
    case "POST" => Call("CreateGroupPost")
    case "GET" => Call("GetGroupPosts")
    case "DELETE" => Call("DeleteGroupPost")
    case _ => PlainNotAllowed
  }

  /** `/api/notification`: list, mark read or clear by method; anything else a JSON 405. */
  function NotificationRoot(verb: string): (d: Dispatch)
    ensures d.Call? <==> verb in {"GET", "PUT", "DELETE"}
    ensures d.Call? ==> d.handler == (if verb == "GET" then "GetNotifications"
                                      else if verb == "PUT" then "MarkNotificationAsRead" else "ClearAllNotifications")
    ensures d.Answer? ==> d.status == MethodNotAllowed && d.json
  {
    match verb
    case "GET" => Call("GetNotifications")
    case "PUT" => Call("MarkNotificationAsRead")
    case "DELETE" => Call("ClearAllNotifications")
    case _ => Answer(MethodNotAllowed, "Method not allowed", true)
  }
}
