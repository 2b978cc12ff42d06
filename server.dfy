/**
 * The control plane's HTTP front: which handler a request reaches, the
 * checks made before the plugin service is called, and the health summary.
 * Handlers answer either by dispatching or with an error message and status.
 */
module Server {
  import opened Wrappers
  import opened Text
  import opened PluginModel
  import PluginService

  const StatusOK: int := 200
  const StatusBadRequest: int := 400
  const StatusMethodNotAllowed: int := 405
  const StatusInternalServerError: int := 500

  /** The handler a request is passed on to. */
  datatype Handler =
    | ListPlugins
    | UploadPlugin
    | GetPlugin(slug: string)
    | DeletePlugin(slug: string)
    | ActivatePlugin(slug: string)
    | DeactivatePlugin(slug: string)

  datatype Reply = Dispatch(handler: Handler) | ErrorReply(message: string, status: int)

  /** `handlePlugins` on `/api/plugins`. */
  function RoutePlugins(verb: string): Reply
  {
    if verb == "GET" then Dispatch(ListPlugins)
    else if verb == "POST" then Dispatch(UploadPlugin)
    else ErrorReply("Method not allowed", StatusMethodNotAllowed)
  }

  /** The path segments `handlePluginBySlug` looks at. */
  function PathParts(path: string): (parts: seq<string>)
    ensures |parts| >= 1
    ensures forall k :: 0 <= k < |parts| ==> '/' !in parts[k]
  {
    Split(TrimChar(path, '/'), '/')
  }

  /**
   * `handlePluginBySlug` on `/api/plugins/...`: the third segment is the
   * slug; a fourth segment names an action, which only POST may invoke.
   */
  function RoutePluginBySlug(path: string, verb: string): Reply
  {
    var parts := PathParts(path);
    if |parts| < 3 then ErrorReply("Invalid URL format", StatusBadRequest)
    else
      var slug := parts[2];
      if slug == "" then ErrorReply("Plugin slug required", StatusBadRequest)
      else if |parts| > 3 then
        if parts[3] == "activate" && verb == "POST" then Dispatch(ActivatePlugin(slug))
        else if parts[3] == "deactivate" && verb == "POST" then Dispatch(DeactivatePlugin(slug))
        else ErrorReply("Invalid action", StatusBadRequest)
      else if verb == "GET" then Dispatch(GetPlugin(slug))
      else if verb == "DELETE" then Dispatch(DeletePlugin(slug))
      else ErrorReply("Method not allowed", StatusMethodNotAllowed)
  }

  /** The collection endpoint lists on GET, uploads on POST, and refuses every other method. */
  lemma RoutePluginsMethods(verb: string)
    ensures RoutePlugins(verb).Dispatch? <==> verb == "GET" || verb == "POST"
    ensures RoutePlugins(verb).ErrorReply? ==> RoutePlugins(verb).status == StatusMethodNotAllowed
  {
  }

  /** A segment a client can put in a path: non-empty and free of '/'. */
  predicate Segment(s: string) { s != "" && '/' !in s }

  /** The path a client uses for one plugin, optionally followed by an action. */
  function PluginPath(slug: string, action: Option<string>): (path: string)
    ensures HasPrefix(path, "/api/plugins/")
  {
    match action
    case None => "/api/plugins/" + slug
    case Some(a) => "/api/plugins/" + slug + "/" + a
  }

  /** The segments of a plugin path. */
  function PathSegments(slug: string, action: Option<string>): seq<string>
  {
    ["api", "plugins", slug] + (if action.Some? then [action.value] else [])
  }

  lemma PluginPathJoin(slug: string, action: Option<string>)
    ensures PluginPath(slug, action) == "/" + Join(PathSegments(slug, action), '/')
  {
    var parts := PathSegments(slug, action);
    var tail := Join(parts[2..], '/');
    assert Join(parts, '/') == "api" + "/" + ("plugins" + "/" + tail) by {
      assert parts[1..][1..] == parts[2..];
    }
    assert "/" + ("api" + "/" + ("plugins" + "/" + tail)) == "/api/plugins/" + tail;
    if action.Some? {
      assert parts[2..][0] == slug && parts[2..][1..] == [action.value];
      assert Join(parts[2..][1..], '/') == action.value;
      assert tail == slug + "/" + action.value;
      assert "/api/plugins/" + tail == "/api/plugins/" + slug + "/" + action.value;
    } else {
      assert tail == slug;
    }
  }

  lemma TrimLeadingSlash(body: string)
    requires body != [] && body[0] != '/' && body[|body| - 1] != '/'
    ensures TrimChar("/" + body, '/') == body
  {
    assert ("/" + body)[1..] == body;
  }

  /** The segments of a well-formed plugin path are the ones it was built from. */
  lemma PluginPathParts(slug: string, action: Option<string>)
    requires Segment(slug) && (action.Some? ==> Segment(action.value))
    ensures PathParts(PluginPath(slug, action)) == PathSegments(slug, action)
  {
    var parts := PathSegments(slug, action);
    var body := Join(parts, '/');
    var path := PluginPath(slug, action);
    PluginPathJoin(slug, action);
    assert path == "/" + body;
    assert body[0] == 'a' by {
      assert path[..13] == "/api/plugins/";
      assert path[1] == 'a';
    }
    assert body[|body| - 1] != '/' by {
      var last := if action.Some? then action.value else slug;
      assert path[|path| - 1] == last[|last| - 1];
    }
    TrimLeadingSlash(body);
    SplitJoin(parts, '/');
  }

  /**
   * Requests on a well-formed plugin path reach the handler the path and
   * method name: an action only with POST and only "activate" or
   * "deactivate"; the bare plugin path with GET or DELETE.
   */
  lemma RoutePluginPath(slug: string, action: Option<string>, verb: string)
    requires Segment(slug) && (action.Some? ==> Segment(action.value))
    ensures var r := RoutePluginBySlug(PluginPath(slug, action), verb);
      && (action == Some("activate") && verb == "POST" ==> r == Dispatch(ActivatePlugin(slug)))
      && (action == Some("deactivate") && verb == "POST" ==> r == Dispatch(DeactivatePlugin(slug)))
      && (action.Some? && !(verb == "POST" && action.value in {"activate", "deactivate"}) ==>
            r == ErrorReply("Invalid action", StatusBadRequest))
      && (action.None? && verb == "GET" ==> r == Dispatch(GetPlugin(slug)))
      && (action.None? && verb == "DELETE" ==> r == Dispatch(DeletePlugin(slug)))
      && (action.None? && verb != "GET" && verb != "DELETE" ==>
            r == ErrorReply("Method not allowed", StatusMethodNotAllowed))
  {
    PluginPathParts(slug, action);
  }

  /**
   * Whatever the path, a dispatched plugin request names a non-empty slug
   * without '/', and an activation or deactivation always came as POST.
   */
  lemma DispatchedSlugIsSegment(path: string, verb: string)
    ensures var r := RoutePluginBySlug(path, verb);
      && (r.Dispatch? ==> !r.handler.ListPlugins? && !r.handler.UploadPlugin? && Segment(r.handler.slug))
      && (r.Dispatch? && (r.handler.ActivatePlugin? || r.handler.DeactivatePlugin?) ==> verb == "POST")
      && (|PathParts(path)| < 3 ==> r == ErrorReply("Invalid URL format", StatusBadRequest))
  {
  }

  /** `handleUploadPlugin`'s file check: the name, lower-cased, ends in ".zip". */
  function UploadCheck(filename: string): Outcome<string>
  {
    if !HasSuffix(Lower(filename), ".zip") then
      Fail("Plugin must be a ZIP file containing rootfs.ext4 and plugin.json")
    else Pass
  }

  /** A name passes exactly when its last four characters are ".zip" in any letter case. */
  lemma UploadCheckSuffix(base: string)
    ensures UploadCheck(base + ".zip").Pass?
    ensures UploadCheck(base + ".ZIP").Pass?
    ensures UploadCheck(base + ".Zip").Pass?
    ensures UploadCheck(base + ".tar").Fail?
  {
    var l := Lower(base + ".ZIP");
    assert l[|l| - 4..] == [LowerChar('.'), LowerChar('Z'), LowerChar('I'), LowerChar('P')];
    var m := Lower(base + ".Zip");
    assert m[|m| - 4..] == [LowerChar('.'), LowerChar('Z'), LowerChar('i'), LowerChar('p')];
    var z := Lower(base + ".zip");
    assert z[|z| - 4..] == ".zip";
    var t := Lower(base + ".tar");
    assert t[|t| - 1] == 'r';
  }

  /** The decoded body of an execute request. */
  datatype ExecuteRequest = ExecuteRequest(action: string)

  /**
   * `handleExecuteAction`'s checks: the method, then whether the body
   * decodes, then whether it names an action; the hook to run otherwise.
   */
  function ExecuteChecks(verb: string, body: Option<ExecuteRequest>): (r: Result<string, Reply>)
    ensures r.Ok? <==> verb == "POST" && body.Some? && body.value.action != ""
    ensures r.Ok? ==> r.value == body.value.action
    ensures r.Err? ==> r.error.ErrorReply? && r.error.status in {StatusBadRequest, StatusMethodNotAllowed}
    ensures verb != "POST" ==> r == Err(ErrorReply("Method not allowed", StatusMethodNotAllowed))
  {
    if verb != "POST" then Err(ErrorReply("Method not allowed", StatusMethodNotAllowed))
    else if body.None? then Err(ErrorReply("Invalid request body", StatusBadRequest))
    else if body.value.action == "" then Err(ErrorReply("Action is required", StatusBadRequest))
    else Ok(body.value.action)
  }

  /** The answer `handleExecuteAction` sends after a dispatch. */
  datatype ExecuteReply = ExecuteReply(actionHook: string, executedPlugins: nat, results: PluginService.ExecuteResponse)

  /** The keys of the map the plugin service's dispatch returns. */
  const DispatchResultKeys: set<string> := {"action_hook", "executed_plugins", "results", "timestamp"}

  /**
   * The reply as written: `executed_plugins` is the length of the map the
   * dispatch returned, that is, its number of keys.
   */
  function ExecuteReplyAsWritten(hook: string, resp: PluginService.ExecuteResponse): ExecuteReply
  {
    ExecuteReply(hook, |DispatchResultKeys|, resp)
  }

  /** As written the count is four whatever ran, so it misreports any dispatch that did not reach four plugins. */
  lemma ExecutedPluginsAlwaysFour(hook: string, resp: PluginService.ExecuteResponse)
    ensures ExecuteReplyAsWritten(hook, resp).executedPlugins == 4
    ensures |resp.results| != 4 ==> ExecuteReplyAsWritten(hook, resp).executedPlugins != |resp.results|
  {
    assert "action_hook" != "executed_plugins" && "results" != "timestamp";
    assert DispatchResultKeys == {"action_hook"} + {"executed_plugins"} + {"results"} + {"timestamp"};
  }

  /** A dispatch that found no plugins at all is reported as four executed plugins. */
  lemma EmptyDispatchReportedAsFour(hook: string)
    ensures ExecuteReplyAsWritten(hook, PluginService.ExecuteResponse(hook, 0, [])).executedPlugins == 4
  {
    ExecutedPluginsAlwaysFour(hook, PluginService.ExecuteResponse(hook, 0, []));
  }

  /** The reply as intended: `executed_plugins` is the number of results the dispatch produced. */
  function ExecuteReplyFor(hook: string, resp: PluginService.ExecuteResponse): (r: ExecuteReply)
    ensures r.executedPlugins == |resp.results|
    ensures resp.executedPlugins == |resp.results| ==> r.executedPlugins == resp.executedPlugins
  {
    ExecuteReply(hook, |resp.results|, resp)
  }

  /** The number of plugins in the list whose status is "active". */
  ghost function ActiveCount(plugins: seq<Plugin>): nat
    reads set i | 0 <= i < |plugins| :: plugins[i]
  {
    if plugins == [] then 0
    else ActiveCount(plugins[..|plugins| - 1]) + (if plugins[|plugins| - 1].status == StatusActive then 1 else 0)
  }

  /** No list has more active plugins than plugins. */
  lemma {:induction false} ActiveCountBounded(plugins: seq<Plugin>)
    ensures ActiveCount(plugins) <= |plugins|
  {
    if plugins != [] {
      ActiveCountBounded(plugins[..|plugins| - 1]);
    }
  }

  /** Every plugin of the list is active exactly when the count reaches the list's length. */
  lemma {:induction false} ActiveCountFull(plugins: seq<Plugin>)
    ensures ActiveCount(plugins) == |plugins| <==> forall i :: 0 <= i < |plugins| ==> plugins[i].status == StatusActive
  {
    if plugins != [] {
      var init := plugins[..|plugins| - 1];
      ActiveCountFull(init);
      ActiveCountBounded(init);
    }
  }

  /** The health summary: total and active plugins, and the number of machines. */
  datatype HealthReply = HealthReply(status: string, totalPlugins: nat, activePlugins: nat, vmInstances: nat)

  /** `handleHealthCheck` over the listed plugins; `vmCount` is the number of machines the VM service lists. */
  method HandleHealthCheck(ps: PluginService.PluginService, vmCount: nat) returns (health: HealthReply)
    requires ps.Valid()
    ensures health.status == "healthy" && health.vmInstances == vmCount
    ensures health.totalPlugins == |ps.plugins|
    ensures health.activePlugins <= health.totalPlugins
    ensures exists list: seq<Plugin> :: (|list| == |ps.plugins| && health.activePlugins == ActiveCount(list)
      && (forall s :: s in ps.plugins ==> multiset(list)[ps.plugins[s]] == 1))
  {
    var plugins := ps.ListPlugins();
    var active := 0;
    var i := 0;
    while i < |plugins|
      invariant 0 <= i <= |plugins|
      invariant active == ActiveCount(plugins[..i])
    {
      assert plugins[..i + 1][..i] == plugins[..i];
      if plugins[i].status == StatusActive {
        active := active + 1;
      }
      i := i + 1;
    }
    assert plugins[..i] == plugins;
    ActiveCountBounded(plugins);
    health := HealthReply("healthy", |plugins|, active, vmCount);
  }
}
