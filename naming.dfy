/**
 * Resource names built by the three gin middlewares of middleware/sentinel.go.
 * The gin accessors (c.Request.Method, c.FullPath(), c.Request.URL.Path,
 * c.ShouldBindBodyWith, c.Query) are plain fields of a Request value.
 */
module ResourceNaming {
  import opened Wrappers

  /** A member of the JSON request body: only whether it decodes to a Go string matters. */
  datatype JsonValue = JsonString(s: string) | JsonNonString

  /** The outcome of binding the request body into a map[string]interface{}. */
  datatype Body = Unbindable | JsonObject(members: map<string, JsonValue>)

  datatype Request = Request(
    httpMethod: string,           // c.Request.Method
    fullPath: string,            // c.FullPath(): the matched route template, "" when none matched
    urlPath: string,             // c.Request.URL.Path
    body: Body,                  // c.ShouldBindBodyWith(&body, binding.JSON)
    query: map<string, string>)  // first value of each query parameter, as c.Query reads it

  /** fmt.Sprintf("%s:%s", a, b) */
  function Join(a: string, b: string): string
  {
    a + ":" + b
  }

  /** The route part of the name: the template, or the raw path when no route matched. */
  function Route(req: Request): string
  {
    if req.fullPath == "" then req.urlPath else req.fullPath
  }

  /** The name SentinelMiddleware and SentinelMiddlewareWithFallback enter. */
  function ResourceName(req: Request): string
  {
    Join(req.httpMethod, Route(req))
  }

  /**
   * Splits a name at its first ':'. The inverse of Join for a left part that holds
   * no ':' (an HTTP method is a token, and a token has no ':').
   */
  function SplitAtColon(s: string): (r: Option<(string, string)>)
    ensures r.Some? ==> ':' !in r.value.0 && s == Join(r.value.0, r.value.1)
    ensures r.None? ==> ':' !in s
  {
    if s == [] then None
    else if s[0] == ':' then Some(([], s[1..]))
    else match SplitAtColon(s[1..])
      case None => None
      case Some(parts) => Some(([s[0]] + parts.0, parts.1))
  }

  lemma {:induction false} SplitJoin(a: string, b: string)
    requires ':' !in a
    ensures SplitAtColon(Join(a, b)) == Some((a, b))
  {
    if a != [] {
      assert Join(a, b)[0] == a[0] != ':';
      assert Join(a, b)[1..] == Join(a[1..], b);
      SplitJoin(a[1..], b);
      assert [a[0]] + a[1..] == a;
    }
  }

  /** The name is "METHOD:route", with the raw URL path standing in for a missing template. */
  lemma ResourceNameParts(req: Request)
    requires ':' !in req.httpMethod
    ensures SplitAtColon(ResourceName(req)) == Some((req.httpMethod, if req.fullPath != "" then req.fullPath else req.urlPath))
  {
    SplitJoin(req.httpMethod, Route(req));
  }

  /** Two requests share a quota exactly when they agree on the method and on the route part. */
  lemma ResourceNameInjective(a: Request, b: Request)
    requires ':' !in a.httpMethod && ':' !in b.httpMethod
    ensures ResourceName(a) == ResourceName(b) <==> a.httpMethod == b.httpMethod && Route(a) == Route(b)
  {
    ResourceNameParts(a);
    ResourceNameParts(b);
  }

  /** A routed request's name does not depend on the raw path (no path-parameter fragmentation). */
  lemma RoutedNameIgnoresUrlPath(a: Request, b: Request)
    requires a.fullPath != "" && a.httpMethod == b.httpMethod && a.fullPath == b.fullPath
    ensures ResourceName(a) == ResourceName(b)
  {
  }

  predicate BindsBody(httpMethod: string)
  {
    httpMethod == "POST" || httpMethod == "PUT"
  }

  /** body[paramName].(string), when the body is read at all and the value is a non-empty string. */
  function BodyParam(req: Request, paramName: string): Option<string>
  {
    if !BindsBody(req.httpMethod) then None
    else match req.body
      case Unbindable => None
      case JsonObject(members) =>
        if paramName in members && members[paramName].JsonString? && members[paramName].s != ""
        then Some(members[paramName].s)
        else None
  }

  /** c.Query(paramName): "" when the parameter is absent. */
  function QueryParam(req: Request, paramName: string): string
  {
    if paramName in req.query then req.query[paramName] else ""
  }

  /**
   * The name ParamBasedSentinelMiddleware enters. As in the source, "" marks
   * "not chosen yet" between the body step, the query step and the default.
   */
  function ParamResourceName(req: Request, paramName: string): string
  {
    var fromBody := match BodyParam(req, paramName)
      case Some(v) => Join(Join(req.httpMethod, req.fullPath), v)
      case None => "";
    var fromQuery :=
      if fromBody == "" && QueryParam(req, paramName) != ""
      then Join(Join(req.httpMethod, req.fullPath), QueryParam(req, paramName))
      else fromBody;
    if fromQuery == "" then Join(req.httpMethod, req.fullPath) else fromQuery
  }

  /** The value the name is keyed by: the body's, else a non-empty query value, else none. */
  function ParamValue(req: Request, paramName: string): Option<string>
  {
    match BodyParam(req, paramName)
    case Some(v) => Some(v)
    case None => if QueryParam(req, paramName) != "" then Some(QueryParam(req, paramName)) else None
  }

  /** The "" marker never hides a chosen name: the name is keyed exactly by ParamValue. */
  lemma ParamNameByValue(req: Request, paramName: string)
    ensures ParamResourceName(req, paramName) ==
      match ParamValue(req, paramName)
      case Some(v) => Join(Join(req.httpMethod, req.fullPath), v)
      case None => Join(req.httpMethod, req.fullPath)
  {
    assert |Join(Join(req.httpMethod, req.fullPath), QueryParam(req, paramName))| > 0;
  }

  /** Body case: a POST/PUT body with a non-empty string value keys the name, whatever the query says. */
  lemma ParamNameFromBody(req: Request, paramName: string, v: string)
    requires BindsBody(req.httpMethod) && req.body.JsonObject?
    requires paramName in req.body.members && req.body.members[paramName] == JsonString(v) && v != ""
    ensures ParamResourceName(req, paramName) == req.httpMethod + ":" + req.fullPath + ":" + v
  {
  }

  /** Query case: with no usable body value, a non-empty query value keys the name. */
  lemma ParamNameFromQuery(req: Request, paramName: string)
    requires !BindsBody(req.httpMethod) || req.body.Unbindable? || paramName !in req.body.members
          || !req.body.members[paramName].JsonString? || req.body.members[paramName].s == ""
    requires paramName in req.query && req.query[paramName] != ""
    ensures ParamResourceName(req, paramName) == req.httpMethod + ":" + req.fullPath + ":" + req.query[paramName]
  {
    ParamNameByValue(req, paramName);
  }

  /** Default case: "METHOD:FullPath", even when no route matched (no raw-path fallback here). */
  lemma ParamNameDefault(req: Request, paramName: string)
    requires BodyParam(req, paramName).None?
    requires paramName !in req.query || req.query[paramName] == ""
    ensures ParamResourceName(req, paramName) == req.httpMethod + ":" + req.fullPath
    ensures req.fullPath == "" && req.urlPath != "" ==> ParamResourceName(req, paramName) != ResourceName(req)
    ensures req.fullPath != "" ==> ParamResourceName(req, paramName) == ResourceName(req)
  {
    if req.fullPath == "" && req.urlPath != "" {
      assert |ParamResourceName(req, paramName)| < |ResourceName(req)|;
    }
  }

  /** On one method and route the parameter-keyed names differ exactly when the chosen values differ. */
  lemma ParamNameSeparatesValues(a: Request, b: Request, paramName: string)
    requires a.httpMethod == b.httpMethod && a.fullPath == b.fullPath
    ensures ParamResourceName(a, paramName) == ParamResourceName(b, paramName)
        <==> ParamValue(a, paramName) == ParamValue(b, paramName)
  {
    ParamNameByValue(a, paramName);
    ParamNameByValue(b, paramName);
    var prefix := Join(a.httpMethod, a.fullPath);
    var na, nb := ParamResourceName(a, paramName), ParamResourceName(b, paramName);
    if na == nb {
      match (ParamValue(a, paramName), ParamValue(b, paramName))
      case (Some(va), Some(vb)) =>
        assert va == na[|prefix| + 1..] && vb == nb[|prefix| + 1..];
      case _ =>
    }
  }

  /**
   * The three-part name is not collision-free: a route template may itself hold
   * ":" (gin's "/orders/:id"), so a keyed name can equal another route's plain name.
   */
  lemma ParamNameCanCollideWithRouteName()
    ensures var routed := Request("GET", "/orders/:id", "/orders/7", Unbindable, map[]);
            var keyed := Request("GET", "/orders/", "/orders/", Unbindable, map["id" := "id"]);
            Route(routed) != keyed.fullPath && ParamResourceName(keyed, "id") == ResourceName(routed)
  {
  }
}
