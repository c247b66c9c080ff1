/** `StaticForm`, `StaticApp` and `WebalizerApp`
    (orchestra/contrib/webapps/types/misc.py). */
module WebAppTypes {
  import opened Wrappers
  import opened PyValues
  import opened Forms
  import opened Paths
  import WebAppBackends
  import StaticBackend
  import ShellModel

  /** The errors `StaticForm.clean` adds. Unlike `clean_username`, only an
      exactly empty username is refused, so a username missing from the
      cleaned data passes. */
  function StaticCleanErrors(cleaned: map<string, Value>, instanceId: Option<int>, webappNewServers: set<string>): (r: seq<FormError>)
    requires ServerOrNone(Get(cleaned, "target_server"))
    ensures |r| <= 1
    ensures !Unsaved(instanceId) ==> r == []
    ensures Unsaved(instanceId) && Get(cleaned, "target_server").VNone? <==>
      r == [FormError(Some("target_server"), "choice some target_server")]
    ensures r == [FormError(Some("username"), "SFTP user is required by new webservers")] <==>
      (Unsaved(instanceId) && Get(cleaned, "target_server").VServer?
       && Get(cleaned, "target_server").server.name in webappNewServers && Get(cleaned, "username") == VStr(""))
    ensures r == [] || r == [FormError(Some("target_server"), "choice some target_server")]
      || r == [FormError(Some("username"), "SFTP user is required by new webservers")]
    ensures (Unsaved(instanceId) && Get(cleaned, "target_server").VServer?
      && !(Get(cleaned, "target_server").server.name in webappNewServers && Get(cleaned, "username") == VStr(""))) ==> r == []
  {
    var server := Get(cleaned, "target_server");
    if !Unsaved(instanceId) then []
    else if server.VNone? then [FormError(Some("target_server"), "choice some target_server")]
    else if server.server.name in webappNewServers && Get(cleaned, "username") == VStr("") then
      [FormError(Some("username"), "SFTP user is required by new webservers")]
    else []
  }

  /** `StaticForm.clean`. It does not call the parent `clean`, so the plugin
      `data` merge does not happen for this form: only the errors change. */
  method StaticFormClean(state: FormState, instanceId: Option<int>, webappNewServers: set<string>)
    requires ServerOrNone(Get(state.cleanedData, "target_server"))
    modifies state
    ensures state.errors == old(state.errors) + StaticCleanErrors(old(state.cleanedData), instanceId, webappNewServers)
    ensures state.cleanedData == old(state.cleanedData) - ErrorFields(StaticCleanErrors(old(state.cleanedData), instanceId, webappNewServers))
  {
    if Unsaved(instanceId) {
      var server := Get(state.cleanedData, "target_server");
      var username := Get(state.cleanedData, "username");
      if server.VNone? {
        state.AddError(Some("target_server"), "choice some target_server");
      } else if server.server.name in webappNewServers && username == VStr("") {
        state.AddError(Some("username"), "SFTP user is required by new webservers");
      }
    }
  }

  /** The directive a static app mounts: its own directory. */
  function StaticDirective(appPath: string): (r: (string, string))
    ensures r.0 == "static" && r.1 == appPath
  {
    ("static", appPath)
  }

  /** The context a webapp's scripts are formatted with carries the app's
      own path. */
  lemma ContextAppPath(w: WebAppBackends.WebApp, st: WebAppBackends.WebAppSettings, banner: string)
    requires WebAppBackends.GetContext(w, st, banner).Ok?
    ensures WebAppBackends.AppPath(WebAppBackends.GetContext(w, st, banner).value) == w.path
  {
    var fixed := WebAppBackends.FixedEntries(w, st, banner, WebAppBackends.SftpUserValue(w, st).value);
    assert fixed["app_path"] == VStr(w.path);
    var layered := w.directiveContext + fixed;
    assert layered["app_path"] == VStr(w.path);
    assert WebAppBackends.GetContext(w, st, banner).value["app_path"] == layered["app_path"];
  }

  /** The backend's scripts for a context act on its `app_path`: saving
      leaves it present, whichever server kind the app is on, and the delete
      script removes or moves exactly that directory. */
  lemma {:induction false} FragmentsActOnAppPath(ctx: WebAppBackends.Context, webappNewServers: set<string>,
                                                  sh: ShellModel.Shell, interim: ShellModel.Fs)
    requires WebAppBackends.ScriptKeys(ctx)
    ensures WebAppBackends.AppPath(ctx) in ShellModel.Run(StaticBackend.SaveFragments(ctx, webappNewServers)[0], sh, interim).fs.present
    ensures forall f :: f in StaticBackend.DeleteFragments(ctx, webappNewServers) ==>
      (f.RemoveTree? && f.path == WebAppBackends.AppPath(ctx)) || (f.MoveNested? && f.appPath == WebAppBackends.AppPath(ctx))
  {
    var first := StaticBackend.SaveFragments(ctx, webappNewServers)[0];
    if first.CheckDir? {
      ShellModel.CheckDirEffect(first.appPath, first.sftpuser, sh, interim);
    } else {
      ShellModel.CreateDirEffect(first.appPath, first.user, first.group, sh, interim);
    }
  }

  /** The directory a static app mounts is the one its backend works on:
      saving leaves it present and deleting removes or moves exactly it. */
  lemma StaticDirectiveServesSavedDir(w: WebAppBackends.WebApp, st: WebAppBackends.WebAppSettings, banner: string,
                                       webappNewServers: set<string>, sh: ShellModel.Shell, interim: ShellModel.Fs)
    requires WebAppBackends.GetContext(w, st, banner).Ok?
    ensures var ctx := WebAppBackends.GetContext(w, st, banner).value;
      var dir := StaticDirective(w.path).1;
      && WebAppBackends.AppPath(ctx) == dir
      && dir in ShellModel.Run(StaticBackend.SaveFragments(ctx, webappNewServers)[0], sh, interim).fs.present
      && forall f :: f in StaticBackend.DeleteFragments(ctx, webappNewServers) ==>
           (f.RemoveTree? && f.path == dir) || (f.MoveNested? && f.appPath == dir)
  {
    ContextAppPath(w, st, banner);
    FragmentsActOnAppPath(WebAppBackends.GetContext(w, st, banner).value, webappNewServers, sh, interim);
  }

  const SiteNamePlaceholder: string := "%(site_name)s"

  /** The directive a webalizer app mounts: the per-site directory below the
      app, with the site name left as a placeholder; `normpath` is Python's
      `os.path.normpath`. */
  function WebalizerDirective(appPath: string, normpath: string -> string): (r: (string, string))
    ensures r.0 == "static"
    ensures r.1 == normpath(Join(appPath, SiteNamePlaceholder))
  {
    ("static", normpath(Join(appPath, SiteNamePlaceholder)))
  }

  /** A `%`-free prefix passes through formatting unchanged. */
  lemma {:induction false} InterpolatePrefix(p: string, t: string, ctx: WebAppBackends.Context)
    requires forall i :: 0 <= i < |p| ==> p[i] != '%'
    ensures WebAppBackends.Interpolate(p + t, ctx) ==
      match WebAppBackends.Interpolate(t, ctx)
      case Ok(s) => Ok(p + s)
      case Err(e) => Err(e)
    decreases |p|
  {
    if p == [] {
      assert p + t == t;
      match WebAppBackends.Interpolate(t, ctx)
      case Ok(s) => assert p + s == s;
      case Err(e) =>
    } else {
      var c := p[0];
      var cs := p[1..];
      assert p + t == [c] + (cs + t);
      InterpolateStep(c, cs + t, ctx);
      InterpolatePrefix(cs, t, ctx);
      match WebAppBackends.Interpolate(t, ctx)
      case Ok(s) => assert [c] + (cs + s) == p + s;
      case Err(e) =>
    }
  }

  lemma InterpolateStep(c: char, u: string, ctx: WebAppBackends.Context)
    requires c != '%'
    ensures WebAppBackends.Interpolate([c] + u, ctx) ==
      match WebAppBackends.Interpolate(u, ctx)
      case Ok(s) => Ok([c] + s)
      case Err(e) => Err(e)
  {
    assert ([c] + u)[1..] == u;
  }

  /** Where `join` puts a relative second part: after the first part and
      a '/' when the first part needs one. */
  function JoinDir(a: string): string {
    if a == [] || a[|a| - 1] == '/' then a else a + "/"
  }

  lemma JoinRelative(a: string, b: string)
    requires b == [] || b[0] != '/'
    ensures Join(a, b) == JoinDir(a) + b
  {
  }

  /** Filling in the site name gives the directory the webalizer backend
      writes the statistics to, `join(app path, site name)`, when the app
      path has no `%` and the site name is relative. */
  lemma DirectiveNamesStatsDir(appPath: string, site: string)
    requires '%' !in appPath
    requires site == [] || site[0] != '/'
    ensures WebAppBackends.Interpolate(WebalizerDirective(appPath, p => p).1, map["site_name" := VStr(site)])
      == Ok(Join(appPath, site))
  {
    var ctx: WebAppBackends.Context := map["site_name" := VStr(site)];
    var dir := JoinDir(appPath);
    forall i | 0 <= i < |dir|
      ensures dir[i] != '%'
    {
      if i < |appPath| {
        assert dir[i] == appPath[i] && appPath[i] in appPath;
      }
    }
    assert SiteNamePlaceholder == "%(" + "site_name" + ")s";
    JoinRelative(appPath, SiteNamePlaceholder);
    JoinRelative(appPath, site);
    WebAppBackends.InterpolateKey("site_name", ctx);
    InterpolatePrefix(dir, SiteNamePlaceholder, ctx);
    assert WebAppBackends.Interpolate(Join(appPath, SiteNamePlaceholder), ctx) == Ok(Join(appPath, site));
    assert WebalizerDirective(appPath, p => p).1 == Join(appPath, SiteNamePlaceholder);
  }
}
