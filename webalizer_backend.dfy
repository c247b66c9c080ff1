/** `WebalizerController` (orchestra/contrib/websites/backends/webalizer.py):
    writes a webalizer configuration for each website a webalizer webapp is
    mounted on, and removes it (and possibly the webapp directory) on delete. */
module WebalizerBackend {
  import opened PyValues
  import opened Paths
  import ShellModel

  /** What the controller reads from a website. */
  datatype Website = Website(name: string, uniqueName: string, accessLogPath: string, targetServer: Server)

  /** A `Content` row: a webapp mounted on a website. */
  datatype Content = Content(website: Website, webappPath: string, accountUsername: string)

  datatype WebalizerContext = WebalizerContext(
    siteLogs: string,
    siteName: string,
    webappPath: string,
    webalizerPath: string,
    webalizerConfPath: string,
    user: string,
    banner: string,
    targetServer: Server,
    webalizerConf: string)

  /** The history and incremental file names: awffull's on new servers,
      webalizer's elsewhere. */
  function HistoryName(onNewServer: bool): string {
    if onNewServer then "awffull.hist" else "webalizer.hist"
  }

  function IncrementalName(onNewServer: bool): string {
    if onNewServer then "awffull.current" else "webalizer.current"
  }

  /** The banner comment, the log file and the output directory. */
  function HeadLead(banner: string, logs: string, outDir: string): string {
    ("# " + banner + "\n") + LeadBody(logs, outDir)
  }

  function LeadBody(logs: string, outDir: string): string {
    "LogFile            " + logs + "\n"
    + "LogType            clf\n"
    + "OutputDir          " + outDir + "\n"
  }

  function HistoryLine(onNewServer: bool): string {
    "HistoryName        " + HistoryName(onNewServer) + "\n"
  }

  /** The incremental settings, title and host name; the legacy template
      carries trailing blanks after the host name. */
  function HeadRest(site: string, onNewServer: bool): string {
    "Incremental        yes\n"
    + "IncrementalName    " + IncrementalName(onNewServer) + "\n"
    + "ReportTitle        Stats of\n"
    + "HostName           " + site + (if onNewServer then "" else HostTrailer) + "\n"
  }

  /** The server-specific head of the configuration. */
  function ConfHead(banner: string, logs: string, outDir: string, site: string, onNewServer: bool): string {
    HeadLead(banner, logs, outDir) + HistoryLine(onNewServer) + HeadRest(site, onNewServer)
  }

  const HostTrailer: string := "                                                        "

  /** Joins lines with newlines, as the template text does. */
  function JoinLines(lines: seq<string>): string
    decreases |lines|
  {
    if lines == [] then ""
    else if |lines| == 1 then lines[0]
    else lines[0] + "\n" + JoinLines(lines[1..])
  }

  /** The lines of the configuration shared by both kinds of server. */
  const TailLines: seq<string> := [
    "",
    "PageType       htm*",
    "PageType       php*",
    "PageType       shtml",
    "PageType       cgi",
    "PageType       pl",
    "",
    "DNSCache       /var/lib/dns_cache.db",
    "DNSChildren    15",
    "",
    "HideURL        *.gif",
    "HideURL        *.GIF",
    "HideURL        *.jpg",
    "HideURL        *.JPG",
    "HideURL        *.png",
    "HideURL        *.PNG",
    "HideURL        *.ra",
    "",
    "IncludeURL     *",
    "",
    "SearchEngine    google.         q=",
    "SearchEngine    yahoo.          p=",
    "SearchEngine    msn.            q=",
    "SearchEngine    search.aol      query=",
    "SearchEngine    altavista.      q=",
    "SearchEngine    lycos.          query=",
    "SearchEngine    hotbot.         query=",
    "SearchEngine    alltheweb.      query=",
    "SearchEngine    infoseek.       qt=",
    "SearchEngine    webcrawler      searchText=",
    "SearchEngine    excite          search=",
    "SearchEngine    netscape.       query=",
    "SearchEngine    ask.com         q=",
    "SearchEngine    webwombat.      ix=",
    "SearchEngine    earthlink.      q=",
    "SearchEngine    search.comcast. q=",
    "SearchEngine    search.mywebsearch.     searchfor=",
    "SearchEngine    reference.com   q=",
    "SearchEngine    mamma.com       query=",
    "# Last attempt catch all",
    "SearchEngine    search.         q=",
    "",
    "DumpSites      yes"]

  const ConfTail: string := JoinLines(TailLines)

  /** `get_context`. `webalizerRoot` is WEBSITES_WEBALIZER_PATH. */
  function GetContext(c: Content, newServers: set<string>, webalizerRoot: string, banner: string): (ctx: WebalizerContext)
    ensures ctx.webalizerPath == Join(c.webappPath, c.website.name)
    ensures ctx.webalizerConfPath == Join(webalizerRoot, c.website.uniqueName + ".conf")
    ensures ctx.targetServer == c.website.targetServer && ctx.webappPath == c.webappPath
    ensures ctx.webalizerConf == ConfFor(c, c.website.targetServer.name in newServers, banner, ConfTail)
  {
    var wpath := Join(c.webappPath, c.website.name);
    var onNew := c.website.targetServer.name in newServers;
    WebalizerContext(
      siteLogs := c.website.accessLogPath,
      siteName := c.website.name,
      webappPath := c.webappPath,
      webalizerPath := wpath,
      webalizerConfPath := Join(webalizerRoot, c.website.uniqueName + ".conf"),
      user := c.accountUsername,
      banner := banner,
      targetServer := c.website.targetServer,
      webalizerConf := ConfFor(c, onNew, banner, ConfTail))
  }

  /** `s` occurs in `t` at position `i`. */
  predicate OccursAt(s: string, t: string, i: nat) {
    i + |s| <= |t| && t[i..i + |s|] == s
  }

  /** Where the pieces of a four-part concatenation sit. */
  lemma {:induction false} PiecesOf(p: string, l: string, r: string, t: string)
    ensures p <= p + l + r + t
    ensures OccursAt(l, p + l + r + t, |p|)
    ensures |t| <= |p + l + r + t| && (p + l + r + t)[|p + l + r + t| - |t|..] == t
  {
    var s := p + l + r + t;
    assert s[..|p|] == p;
    assert s[|p|..|p| + |l|] == l;
    assert s[|s| - |t|..] == t;
  }

  /** The configuration written for content `c`, given the shared tail. */
  function ConfFor(c: Content, onNewServer: bool, banner: string, tail: string): string {
    ConfHead(banner, c.website.accessLogPath, Join(c.webappPath, c.website.name), c.website.name, onNewServer) + tail
  }

  /** The configuration opens with the banner comment, ends with the shared
      tail, and names awffull's history file on new servers and webalizer's
      elsewhere. */
  lemma ConfShape(c: Content, onNewServer: bool, banner: string, tail: string)
    ensures var conf := ConfFor(c, onNewServer, banner, tail);
      var lead := HeadLead(banner, c.website.accessLogPath, Join(c.webappPath, c.website.name));
      && "# " + banner + "\n" <= conf
      && |tail| <= |conf| && conf[|conf| - |tail|..] == tail
      && OccursAt(HistoryLine(onNewServer), conf, |lead|)
  {
    var banned := "# " + banner + "\n";
    var body := LeadBody(c.website.accessLogPath, Join(c.webappPath, c.website.name));
    var history := HistoryLine(onNewServer);
    var rest := HeadRest(c.website.name, onNewServer);
    assert ConfFor(c, onNewServer, banner, tail) == (banned + body) + history + rest + tail;
    ConfPieces(banned, body, history, rest, tail);
  }

  /** Where the pieces of the configuration sit. */
  lemma ConfPieces(banned: string, body: string, history: string, rest: string, tail: string)
    ensures var conf := (banned + body) + history + rest + tail;
      && banned <= conf
      && |tail| <= |conf| && conf[|conf| - |tail|..] == tail
      && OccursAt(history, conf, |banned + body|)
  {
    var conf := (banned + body) + history + rest + tail;
    PiecesOf(banned + body, history, rest, tail);
    assert conf == banned + (body + history + rest + tail);
    assert conf[..|banned|] == banned;
  }

  function IndexPath(ctx: WebalizerContext): string { ctx.webalizerPath + "/index.html" }

  /** The commands of the save script, one per line or block. */
  datatype Step =
    | MakeDirs(path: string)
    | PlaceholderIfAbsent(dir: string)
    | WriteHeredoc(path: string, body: string)
    | Comment(text: string)
    | Chown(owner: string, path: string)
    | ChmodGroupRead(path: string)

  /** The text of one command. */
  function StepText(st: Step): string {
    match st
    case MakeDirs(p) => "mkdir -p " + p + "\n"
    case PlaceholderIfAbsent(d) =>
      "if [[ ! -e " + d + "/index.html ]]; then\n"
      + "    echo 'Webstats are coming soon' > " + d + "/index.html\n"
      + "fi\n"
    case WriteHeredoc(p, body) => "cat << 'EOF' > " + p + "\n" + body + "\n" + "EOF\n"
    case Comment(t) => "# " + t + "\n"
    case Chown(o, p) => "chown " + o + " " + p + "\n"
    case ChmodGroupRead(p) => "chmod g+xr " + p + "\n"
  }

  function StepsText(steps: seq<Step>): string {
    if steps == [] then "" else StepText(steps[0]) + StepsText(steps[1..])
  }

  /** The save script read as commands. */
  function SaveSteps(ctx: WebalizerContext): seq<Step> {
    [MakeDirs(ctx.webalizerPath),
     PlaceholderIfAbsent(ctx.webalizerPath),
     WriteHeredoc(ctx.webalizerConfPath, ctx.webalizerConf),
     Comment("chown " + ctx.user + ":www-data " + ctx.webalizerPath),
     Chown("www-data:www-data", ctx.webalizerPath),
     ChmodGroupRead(ctx.webalizerPath)]
  }

  /** The script `save` appends: the text of those commands, in order. */
  function SaveScript(ctx: WebalizerContext): string {
    StepsText(SaveSteps(ctx))
  }

  /** What one command does to the server's files, and the files it writes.
      Permissions other than ownership are not modelled. */
  function RunStep(st: Step, fs: ShellModel.Fs, written: set<string>): (ShellModel.Fs, set<string>) {
    match st
    case MakeDirs(p) => (fs.(present := fs.present + {p}), written)
    case PlaceholderIfAbsent(d) =>
      var index := d + "/index.html";
      if index in fs.present then (fs, written)
      else (fs.(present := fs.present + {index}, populated := fs.populated + {d}), written + {index})
    case WriteHeredoc(p, _) => (fs.(present := fs.present + {p}), written + {p})
    case Comment(_) => (fs, written)
    case Chown(o, p) => if p in fs.present then (fs.(owner := fs.owner[p := o]), written) else (fs, written)
    case ChmodGroupRead(_) => (fs, written)
  }

  function RunSteps(steps: seq<Step>, fs: ShellModel.Fs, written: set<string>): (ShellModel.Fs, set<string>)
    decreases |steps|
  {
    if steps == [] then (fs, written)
    else
      var (fs1, written1) := RunStep(steps[0], fs, written);
      RunSteps(steps[1..], fs1, written1)
  }

  /** Running the save script: the placeholder `index.html` is written only
      when it does not exist yet (or is the configuration itself); the
      configuration is rewritten every time; nothing else is written; the
      stats directory exists afterwards and belongs to www-data. */
  lemma SaveKeepsExistingIndex(ctx: WebalizerContext, fs: ShellModel.Fs)
    ensures var (after, written) := RunSteps(SaveSteps(ctx), fs, {});
      && (IndexPath(ctx) in written <==> IndexPath(ctx) !in fs.present || IndexPath(ctx) == ctx.webalizerConfPath)
      && ctx.webalizerConfPath in written
      && written <= {IndexPath(ctx), ctx.webalizerConfPath}
      && IndexPath(ctx) in after.present && ctx.webalizerPath in after.present
      && after.owner == fs.owner[ctx.webalizerPath := "www-data:www-data"]
  {
    var steps := SaveSteps(ctx);
    var index := IndexPath(ctx);
    var s1 := RunStep(steps[0], fs, {});
    var s2 := RunStep(steps[1], s1.0, s1.1);
    var s3 := RunStep(steps[2], s2.0, s2.1);
    var s4 := RunStep(steps[3], s3.0, s3.1);
    var s5 := RunStep(steps[4], s4.0, s4.1);
    var s6 := RunStep(steps[5], s5.0, s5.1);
    assert s1.0.present == fs.present + {ctx.webalizerPath} && s1.1 == {} && s1.0.owner == fs.owner;
    assert index in s2.0.present && s2.1 == (if index in fs.present then {} else {index}) && s2.0.owner == fs.owner;
    assert ctx.webalizerPath in s2.0.present;
    assert s4 == s3;
    assert s6 == s5;
    RunStepsUnfold(steps, fs, {});
  }

  /** Running six commands is running them one after the other. */
  lemma RunStepsUnfold(steps: seq<Step>, fs: ShellModel.Fs, written: set<string>)
    requires |steps| == 6
    ensures var s1 := RunStep(steps[0], fs, written);
      var s2 := RunStep(steps[1], s1.0, s1.1);
      var s3 := RunStep(steps[2], s2.0, s2.1);
      var s4 := RunStep(steps[3], s3.0, s3.1);
      var s5 := RunStep(steps[4], s4.0, s4.1);
      RunSteps(steps, fs, written) == RunStep(steps[5], s5.0, s5.1)
  {
    var s1 := RunStep(steps[0], fs, written);
    var s2 := RunStep(steps[1], s1.0, s1.1);
    var s3 := RunStep(steps[2], s2.0, s2.1);
    var s4 := RunStep(steps[3], s3.0, s3.1);
    var s5 := RunStep(steps[4], s4.0, s4.1);
    var s6 := RunStep(steps[5], s5.0, s5.1);
    assert RunSteps(steps, fs, written) == RunSteps(steps[1..], s1.0, s1.1);
    assert RunSteps(steps[1..], s1.0, s1.1) == RunSteps(steps[2..], s2.0, s2.1) by {
      assert steps[1..][0] == steps[1] && steps[1..][1..] == steps[2..];
    }
    assert RunSteps(steps[2..], s2.0, s2.1) == RunSteps(steps[3..], s3.0, s3.1) by {
      assert steps[2..][0] == steps[2] && steps[2..][1..] == steps[3..];
    }
    assert RunSteps(steps[3..], s3.0, s3.1) == RunSteps(steps[4..], s4.0, s4.1) by {
      assert steps[3..][0] == steps[3] && steps[3..][1..] == steps[4..];
    }
    assert RunSteps(steps[4..], s4.0, s4.1) == RunSteps(steps[5..], s5.0, s5.1) by {
      assert steps[4..][0] == steps[4] && steps[4..][1..] == steps[5..];
    }
    assert RunSteps(steps[5..], s5.0, s5.1) == s6 by {
      assert steps[5..][0] == steps[5] && steps[5..][1..] == [];
    }
  }

  /** The removals `delete` appends: the webapp directory when its row is
      gone, then the stats directory and configuration when the webapp is
      gone or no longer mounted on this website. */
  function DeleteScripts(ctx: WebalizerContext, webappExists: bool, remounted: bool): (r: seq<string>)
    ensures |r| == (if webappExists then 0 else 1) + (if !webappExists || !remounted then 2 else 0)
    ensures (!webappExists) <==> (r != [] && r[0] == "rm -fr " + ctx.webappPath && |r| == 3)
    ensures (!webappExists || !remounted) <==>
      (|r| >= 2 && r[|r| - 2..] == ["rm -fr " + ctx.webalizerPath, "rm -f " + ctx.webalizerConfPath])
    ensures webappExists && remounted <==> r == []
  {
    (if !webappExists then ["rm -fr " + ctx.webappPath] else [])
    + (if !webappExists || !remounted then ["rm -fr " + ctx.webalizerPath, "rm -f " + ctx.webalizerConfPath] else [])
  }

  class WebalizerController {
    var script: seq<string>
    const banner: string
    const newServers: set<string>
    const webalizerRoot: string

    constructor (banner: string, newServers: set<string>, webalizerRoot: string)
      ensures script == [] && this.banner == banner
      ensures this.newServers == newServers && this.webalizerRoot == webalizerRoot
    {
      script := [];
      this.banner := banner;
      this.newServers := newServers;
      this.webalizerRoot := webalizerRoot;
    }

    /** `save`: exactly one fragment. */
    method Save(c: Content)
      modifies this
      ensures script == old(script) + [SaveScript(GetContext(c, newServers, webalizerRoot, banner))]
    {
      var context := GetContext(c, newServers, webalizerRoot, banner);
      script := script + [SaveScript(context)];
    }

    /** `delete`; whether the webapp row still exists and whether the webapp is
        still mounted on the same website are the two database queries. */
    method Delete(c: Content, webappExists: bool, remounted: bool)
      modifies this
      ensures script == old(script) + DeleteScripts(GetContext(c, newServers, webalizerRoot, banner), webappExists, remounted)
    {
      var context := GetContext(c, newServers, webalizerRoot, banner);
      AppendDelete(context, webappExists, remounted);
    }

    /** The body of `delete` once the context is built. */
    method AppendDelete(context: WebalizerContext, webappExists: bool, remounted: bool)
      modifies this
      ensures script == old(script) + DeleteScripts(context, webappExists, remounted)
    {
      var deleteWebapp := !webappExists;
      if deleteWebapp {
        script := script + ["rm -fr " + context.webappPath];
      }
      if deleteWebapp || !remounted {
        script := script + ["rm -fr " + context.webalizerPath];
        script := script + ["rm -f " + context.webalizerConfPath];
      }
    }
  }
}
