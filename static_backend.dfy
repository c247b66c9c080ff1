/** `StaticController` (orchestra/contrib/webapps/backends/static.py): the
    backend for static webapps, forking on whether the target server is one
    of WEBAPP_NEW_SERVERS. That set is distinct from the NEW_SERVERS set the
    context uses to pick the SFTP user. */
module StaticBackend {
  import opened Wrappers
  import opened PyValues
  import opened ShellModel
  import opened WebAppBackends

  /** `context.get('target_server').name in WEBAPP_NEW_SERVERS` */
  predicate OnNewServer(ctx: Context, webappNewServers: set<string>)
    requires ScriptKeys(ctx)
  {
    ctx["target_server"].server.name in webappNewServers
  }

  /** The fragments `save` appends for a context. */
  function SaveFragments(ctx: Context, webappNewServers: set<string>): (r: seq<Fragment>)
    requires ScriptKeys(ctx)
    ensures 1 <= |r| <= 2
    ensures r[0] == if OnNewServer(ctx, webappNewServers) then CheckFragment(ctx) else CreateFragment(ctx)
    ensures r[1..] == UnderConstructionFragments(ctx)
  {
    (if OnNewServer(ctx, webappNewServers) then [CheckFragment(ctx)] else [CreateFragment(ctx)])
      + UnderConstructionFragments(ctx)
  }

  /** The fragments `delete` appends: none on a new server. */
  function DeleteFragments(ctx: Context, webappNewServers: set<string>): (r: seq<Fragment>)
    requires ScriptKeys(ctx)
    ensures r == [] <==> OnNewServer(ctx, webappNewServers)
    ensures r != [] ==> r == [DeleteFragment(ctx)]
  {
    if OnNewServer(ctx, webappNewServers) then [] else [DeleteFragment(ctx)]
  }

  class StaticController {
    const service: WebAppServiceMixin
    const settings: WebAppSettings
    const webappNewServers: set<string>

    constructor (banner: string, settings: WebAppSettings, webappNewServers: set<string>)
      ensures fresh(service) && service.script == [] && service.banner == banner
      ensures this.settings == settings && this.webappNewServers == webappNewServers
    {
      service := new WebAppServiceMixin(banner);
      this.settings := settings;
      this.webappNewServers := webappNewServers;
    }

    /** `save`: on failure to build the context nothing is appended. */
    method Save(w: WebApp) returns (failure: Option<Exception>)
      modifies service
      ensures failure.Some? <==> GetContext(w, settings, service.banner).Err?
      ensures failure.Some? ==> service.script == old(service.script)
      ensures failure.None? ==>
        service.script == old(service.script) + SaveFragments(GetContext(w, settings, service.banner).value, webappNewServers)
    {
      var r := GetContext(w, settings, service.banner);
      if r.Err? {
        return Some(r.error);
      }
      AppendSave(r.value);
      failure := None;
    }

    /** The body of `save` once the context is built. */
    method AppendSave(context: Context)
      requires ScriptKeys(context)
      modifies service
      ensures service.script == old(service.script) + SaveFragments(context, webappNewServers)
    {
      if context["target_server"].server.name in webappNewServers {
        service.CheckWebappDir(context);
      } else {
        service.CreateWebappDir(context);
      }
      ghost var middle := service.script;
      var updated := service.SetUnderConstruction(context);
      assert service.script == middle + UnderConstructionFragments(context);
    }

    /** `delete`: only non-new servers get a removal fragment. */
    method Delete(w: WebApp) returns (failure: Option<Exception>)
      modifies service
      ensures failure.Some? <==> GetContext(w, settings, service.banner).Err?
      ensures failure.Some? ==> service.script == old(service.script)
      ensures failure.None? ==>
        service.script == old(service.script) + DeleteFragments(GetContext(w, settings, service.banner).value, webappNewServers)
    {
      var r := GetContext(w, settings, service.banner);
      if r.Err? {
        return Some(r.error);
      }
      var context := r.value;
      if context["target_server"].server.name !in webappNewServers {
        service.DeleteWebappDir(context);
      }
      failure := None;
    }
  }

  /** The two `save` branches differ only in their first fragment. */
  lemma SaveBranchesDifferInFirstOnly(ctx: Context, legacy: set<string>, pool: set<string>)
    requires ScriptKeys(ctx)
    requires !OnNewServer(ctx, legacy) && OnNewServer(ctx, pool)
    ensures SaveFragments(ctx, legacy)[1..] == SaveFragments(ctx, pool)[1..]
    ensures SaveFragments(ctx, legacy)[0].CreateDir? && SaveFragments(ctx, pool)[0].CheckDir?
  {
  }

  /** Save on a legacy server, for a path that does not exist yet: the
      directory is created and chowned to the account's user:group. On a new
      server the first fragment creates it without touching any owner. */
  lemma SaveFirstFragmentOwnership(ctx: Context, webappNewServers: set<string>, sh: Shell, interim: Fs)
    requires ScriptKeys(ctx) && AppPath(ctx) !in sh.fs.present
    ensures var r := Run(SaveFragments(ctx, webappNewServers)[0], sh, interim);
      && r.created
      && AppPath(ctx) in r.fs.present
      && (!OnNewServer(ctx, webappNewServers) ==>
            r.fs.owner == sh.fs.owner[AppPath(ctx) := Str(ctx["user"]) + ":" + Str(ctx["group"])])
      && (OnNewServer(ctx, webappNewServers) ==> r.fs.owner == sh.fs.owner)
  {
  }

  /** A successful save on a legacy server appends create then (possibly)
      the placeholder; on a new server check then (possibly) the placeholder,
      and in both the placeholder follows the directory fragment. */
  lemma SaveOrder(ctx: Context, webappNewServers: set<string>)
    requires ScriptKeys(ctx) && Truthy(ctx["under_construction_path"])
    ensures SaveFragments(ctx, webappNewServers) ==
      [if OnNewServer(ctx, webappNewServers) then CheckFragment(ctx) else CreateFragment(ctx),
       UnderConstructionFragment(ctx)]
  {
  }
}
