/** `WebAppServiceMixin` (orchestra/contrib/webapps/backends/__init__.py):
    the context a webapp backend builds and the helpers that append shell
    fragments to the controller's script buffer. */
module WebAppBackends {
  import opened Wrappers
  import opened PyValues
  import opened ShellModel

  /** A template context: Python's dict of template variables. */
  type Context = map<string, Value>

  // ---------------------------------------------------------------------
  // Python's `template % mapping`

  function IndexOf(s: string, c: char): (r: Option<nat>)
    ensures r.Some? ==> r.value < |s| && s[r.value] == c && c !in s[..r.value]
    ensures r.None? ==> c !in s
  {
    if s == [] then None
    else if s[0] == c then Some(0)
    else match IndexOf(s[1..], c)
      case None => None
      case Some(i) => assert s[..i + 1] == [s[0]] + s[1..][..i]; Some(i + 1)
  }

  /** `t % ctx` for the conversions the settings use: `%%` and `%(key)s`.
      A missing key is a KeyError; any other conversion is reported as a
      ValueError (positional and numeric conversions are not modelled). */
  function Interpolate(t: string, ctx: Context): Result<string, Exception>
    decreases |t|
  {
    if t == [] then Ok([])
    else if t[0] != '%' then
      var rest :- Interpolate(t[1..], ctx);
      Ok([t[0]] + rest)
    else if |t| >= 2 && t[1] == '%' then
      var rest :- Interpolate(t[2..], ctx);
      Ok("%" + rest)
    else if |t| >= 2 && t[1] == '(' then
      match IndexOf(t[2..], ')')
      case None => Err(ValueError("incomplete format key"))
      case Some(j) =>
        var key := t[2..2 + j];
        var after := t[3 + j..];
        if key !in ctx then Err(KeyError(key))
        else if after != [] && after[0] == 's' then
          var rest :- Interpolate(after[1..], ctx);
          Ok(Str(ctx[key]) + rest)
        else Err(ValueError("unsupported format character"))
    else Err(ValueError("incomplete format"))
  }

  /** A template without `%` formats to itself, whatever the context. */
  lemma {:induction false} InterpolatePlain(t: string, ctx: Context)
    requires '%' !in t
    ensures Interpolate(t, ctx) == Ok(t)
    decreases |t|
  {
    if t != [] {
      assert '%' !in t[1..];
      InterpolatePlain(t[1..], ctx);
      assert [t[0]] + t[1..] == t;
    }
  }

  /** A single placeholder formats to the value's text. */
  lemma InterpolateKey(key: string, ctx: Context)
    requires key in ctx && ')' !in key
    ensures Interpolate("%(" + key + ")s", ctx) == Ok(Str(ctx[key]))
  {
    var t := "%(" + key + ")s";
    assert t[2..] == key + ")s";
    assert IndexOf(t[2..], ')') == Some(|key|);
    assert t[2..2 + |key|] == key;
    assert t[3 + |key|..] == "s";
    assert Interpolate("s"[1..], ctx) == Ok([]);
    assert Str(ctx[key]) + [] == Str(ctx[key]);
  }

  // ---------------------------------------------------------------------
  // get_context

  /** What `get_context` reads from a WebApp row; the path, user and group
      names come from the WebApp model's own methods, and `directiveContext`
      from the app type's `get_directive_context()`. */
  datatype WebApp = WebApp(
    name: string,
    appType: string,
    path: string,
    username: string,
    groupname: string,
    targetServer: Server,
    sftpuser: Option<string>,
    mounted: bool,
    directiveContext: Context)

  /** NEW_SERVERS and the webapps settings the context reads. */
  datatype WebAppSettings = WebAppSettings(
    newServers: set<string>,
    underConstructionPath: Value,
    moveOnDeletePath: string)

  const FixedKeys: set<string> := {"user", "group", "app_name", "app_type", "app_path", "banner",
    "under_construction_path", "is_mounted", "target_server", "sftpuser"}

  /** `webapp.sftpuser.username` on a new server (AttributeError when the
      webapp has no SFTP user), None elsewhere. */
  function SftpUserValue(w: WebApp, st: WebAppSettings): Result<Value, Exception> {
    if w.targetServer.name in st.newServers then
      match w.sftpuser
      case Some(u) => Ok(VStr(u))
      case None => Err(AttributeError("'NoneType' object has no attribute 'username'"))
    else Ok(VNone)
  }

  function FixedEntries(w: WebApp, st: WebAppSettings, banner: string, sftp: Value): (m: Context)
    ensures m.Keys == FixedKeys
  {
    map["user" := VStr(w.username), "group" := VStr(w.groupname), "app_name" := VStr(w.name),
        "app_type" := VStr(w.appType), "app_path" := VStr(w.path), "banner" := VStr(banner),
        "under_construction_path" := st.underConstructionPath, "is_mounted" := VBool(w.mounted),
        "target_server" := VServer(w.targetServer), "sftpuser" := sftp]
  }

  /** The keys every fragment template reads, with the shapes the helpers need. */
  ghost predicate ScriptKeys(ctx: Context) {
    && FixedKeys <= ctx.Keys
    && "deleted_app_path" in ctx
    && ctx["target_server"].VServer?
  }

  /** `get_context`: the app type's directive context overlaid with the fixed
      keys, then `deleted_app_path` formatted from that filled context. */
  function GetContext(w: WebApp, st: WebAppSettings, banner: string): (r: Result<Context, Exception>)
    ensures r.Ok? ==> ScriptKeys(r.value)
    ensures r.Ok? && w.targetServer.name in st.newServers ==> w.sftpuser.Some? && r.value["sftpuser"] == VStr(w.sftpuser.value)
    ensures r.Ok? && w.targetServer.name !in st.newServers ==> r.value["sftpuser"] == VNone
    ensures r.Ok? ==> r.value["target_server"] == VServer(w.targetServer)
    ensures r.Ok? ==> r.value.Keys == w.directiveContext.Keys + FixedKeys + {"deleted_app_path"}
    ensures r.Err? <==>
      (w.targetServer.name in st.newServers && w.sftpuser.None?)
      || Interpolate(st.moveOnDeletePath, w.directiveContext + FixedEntries(w, st, banner, SftpUserValue(w, st).value)).Err?
  {
    var sftp :- SftpUserValue(w, st);
    var ctx := w.directiveContext + FixedEntries(w, st, banner, sftp);
    var deleted :- Interpolate(st.moveOnDeletePath, ctx);
    Ok(ctx["deleted_app_path" := VStr(deleted)])
  }

  /** The fixed keys win over same-named directive keys, the other directive
      keys pass through, and `deleted_app_path` is formatted from the context
      as filled so far. */
  lemma GetContextLayers(w: WebApp, st: WebAppSettings, banner: string)
    requires GetContext(w, st, banner).Ok?
    ensures var ctx := GetContext(w, st, banner).value;
      var fixed := FixedEntries(w, st, banner, SftpUserValue(w, st).value);
      && (forall k :: k in FixedKeys ==> ctx[k] == fixed[k])
      && (forall k :: k in w.directiveContext && k !in FixedKeys && k != "deleted_app_path" ==>
            ctx[k] == w.directiveContext[k])
      && ctx["deleted_app_path"] == VStr(Interpolate(st.moveOnDeletePath, w.directiveContext + fixed).value)
  {
    var fixed := FixedEntries(w, st, banner, SftpUserValue(w, st).value);
    var layered := w.directiveContext + fixed;
    assert GetContext(w, st, banner).value == layered["deleted_app_path" := VStr(Interpolate(st.moveOnDeletePath, layered).value)];
  }

  // ---------------------------------------------------------------------
  // The fragment each helper appends

  function AppPath(ctx: Context): string requires ScriptKeys(ctx) { Str(ctx["app_path"]) }

  function CheckFragment(ctx: Context): Fragment
    requires ScriptKeys(ctx)
  {
    CheckDir(AppPath(ctx), Str(ctx["sftpuser"]))
  }

  function CreateFragment(ctx: Context): Fragment
    requires ScriptKeys(ctx)
  {
    CreateDir(AppPath(ctx), Str(ctx["user"]), Str(ctx["group"]))
  }

  /** The `{% if sftpuser %}` choice of the `perms` template. */
  function PermOf(ctx: Context): Perm
    requires ScriptKeys(ctx)
  {
    if Truthy(ctx["sftpuser"]) then SftpOwner(Str(ctx["sftpuser"]))
    else AccountOwner(Str(ctx["user"]), Str(ctx["group"]))
  }

  function UnderConstructionFragment(ctx: Context): Fragment
    requires ScriptKeys(ctx)
  {
    UnderConstruction(AppPath(ctx), Str(ctx["under_construction_path"]), PermOf(ctx))
  }

  /** What `set_under_construction` appends: nothing when no placeholder
      path is configured. */
  function UnderConstructionFragments(ctx: Context): (r: seq<Fragment>)
    requires ScriptKeys(ctx)
    ensures |r| <= 1
    ensures r != [] <==> Truthy(ctx["under_construction_path"])
  {
    if Truthy(ctx["under_construction_path"]) then [UnderConstructionFragment(ctx)] else []
  }

  /** Move into the quarantine path when one is configured, else remove. */
  function DeleteFragment(ctx: Context): (f: Fragment)
    requires ScriptKeys(ctx)
    ensures f.MoveNested? <==> Truthy(ctx["deleted_app_path"])
    ensures f.RemoveTree? ==> f.path == AppPath(ctx)
    ensures f.MoveNested? ==> f.appPath == AppPath(ctx) && f.deletedPath == Str(ctx["deleted_app_path"])
  {
    if Truthy(ctx["deleted_app_path"]) then MoveNested(Str(ctx["deleted_app_path"]), AppPath(ctx))
    else RemoveTree(AppPath(ctx))
  }

  /** The `perms` text: `sftpuser:sftpuser` when the context has an SFTP
      user, `user:group` otherwise. */
  lemma PermsChoice(ctx: Context)
    requires ScriptKeys(ctx)
    ensures OwnerOf(PermOf(ctx)) ==
      if Truthy(ctx["sftpuser"]) then Str(ctx["sftpuser"]) + ":" + Str(ctx["sftpuser"])
      else Str(ctx["user"]) + ":" + Str(ctx["group"])
  {
  }

  // ---------------------------------------------------------------------
  // The controller's script buffer and the helpers

  class WebAppServiceMixin {
    /** The fragments appended so far (`ServiceController.append`), in
        order; the buffer's text is `ScriptText()`. */
    var script: seq<Fragment>
    /** `get_banner()`, taken as an opaque string. */
    const banner: string

    constructor (banner: string)
      ensures script == [] && this.banner == banner
    {
      this.banner := banner;
      script := [];
    }

    /** The text of the buffer, one entry per appended fragment. */
    function ScriptText(): (r: seq<string>)
      reads this
      ensures |r| == |script|
    {
      seq(|script|, i requires 0 <= i < |script| reads this => Render(script[i]))
    }

    /** `self.append(text)` for the text of fragment `f`. */
    method Append(f: Fragment)
      modifies this
      ensures script == old(script) + [f]
    {
      script := script + [f];
    }

    method CheckWebappDir(ctx: Context)
      requires ScriptKeys(ctx)
      modifies this
      ensures script == old(script) + [CheckFragment(ctx)]
    {
      Append(CheckFragment(ctx));
    }

    method CreateWebappDir(ctx: Context)
      requires ScriptKeys(ctx)
      modifies this
      ensures script == old(script) + [CreateFragment(ctx)]
    {
      Append(CreateFragment(ctx));
    }

    /** Returns the context with `perms` stored in it, as the source's
        in-place `context.update` leaves it. */
    method SetUnderConstruction(ctx: Context) returns (updated: Context)
      requires ScriptKeys(ctx)
      modifies this
      ensures ScriptKeys(updated)
      ensures script == old(script) + UnderConstructionFragments(ctx)
      ensures Truthy(ctx["under_construction_path"]) ==>
        updated == ctx["perms" := VStr(PermsText(PermOf(ctx), AppPath(ctx)))]
      ensures !Truthy(ctx["under_construction_path"]) ==> updated == ctx
    {
      updated := ctx;
      if Truthy(ctx["under_construction_path"]) {
        updated := ctx["perms" := VStr(PermsText(PermOf(ctx), AppPath(ctx)))];
        assert UnderConstructionFragment(updated) == UnderConstructionFragment(ctx);
        Append(UnderConstructionFragment(updated));
      }
    }

    method DeleteWebappDir(ctx: Context)
      requires ScriptKeys(ctx)
      modifies this
      ensures script == old(script) + [DeleteFragment(ctx)]
    {
      Append(DeleteFragment(ctx));
    }
  }
}
