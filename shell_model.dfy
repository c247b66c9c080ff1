/** The shell fragments the webapp backends emit, their text (the dedented
    templates of orchestra/contrib/webapps/backends/__init__.py with the
    context substituted) and what running them does to an abstract view of
    the target server's filesystem. */
module ShellModel {

  /** Who `set_under_construction` chowns the placeholder to. */
  datatype Perm =
    | SftpOwner(sftpuser: string)
    | AccountOwner(user: string, group: string)

  function OwnerOf(p: Perm): string {
    match p
    case SftpOwner(s) => s + ":" + s
    case AccountOwner(u, g) => u + ":" + g
  }

  datatype Fragment =
    | CheckDir(appPath: string, sftpuser: string)
    | CreateDir(appPath: string, user: string, group: string)
    | UnderConstruction(appPath: string, source: string, perm: Perm)
    | MoveNested(deletedPath: string, appPath: string)
    | RemoveTree(path: string)

  /** The rendered `perms` template: a choice between the two chown lines. */
  function PermsText(p: Perm, appPath: string): string {
    match p
    case SftpOwner(s) => "\n            chown -R " + s + ":" + s + " " + appPath + "/* \n"
    case AccountOwner(u, g) => "\n            chown -R " + u + ":" + g + " " + appPath + "/*\n\n"
  }

  /** The script text a fragment appends to the buffer. */
  function Render(f: Fragment): string {
    match f
    case CheckDir(a, s) =>
      "\n# Create webapp dir\nCREATED=0\nif [[ ! -e " + a + " ]]; then\n    mkdir -p " + a
      + "\n    #chown " + s + ":" + s + " " + a + "\n    CREATED=1\nelif [[ -z $( ls -A " + a
      + " ) ]]; then\n    CREATED=1\nfi"
    case CreateDir(a, u, g) =>
      "\n# Create webapp dir\nCREATED=0\nif [[ ! -e " + a + " ]]; then\n    CREATED=1\n    mkdir -p " + a
      + "\n    chown " + u + ":" + g + " " + a + "\nfi"
    case UnderConstruction(a, src, p) =>
      "\n# Set under construction if needed\nif [[ $CREATED == 1 && ! $(ls -A " + a
      + " | head -n1) ]]; then\n    # Async wait some seconds for other backends to lock app_path or cp under construction\n"
      + "    nohup bash -c '\n        sleep 2\n        if [[ ! $(ls -A " + a + " | head -n1) ]]; then\n"
      + "            cp -r " + src + " " + a + "\n            " + PermsText(p, a)
      + "\n        fi' &> /dev/null &\nfi"
    case MoveNested(d, a) =>
      "# Move app into WEBAPPS_MOVE_ON_DELETE_PATH, nesting if exists.\ndeleted_app_path=\"" + d
      + "\"\nwhile [[ -e $deleted_app_path ]]; do\n    deleted_app_path=\"${deleted_app_path}/$(basename ${deleted_app_path})\"\n"
      + "done\nmv " + a + " $deleted_app_path || exit_code=$?\n"
    case RemoveTree(p) => "rm -fr " + p
  }

  // ---------------------------------------------------------------------
  // The `while [[ -e $deleted_app_path ]]` nesting loop

  function StripTrailingSlashes(p: string): (t: string)
    ensures |t| <= |p|
  {
    if p != [] && p[|p| - 1] == '/' then StripTrailingSlashes(p[..|p| - 1]) else p
  }

  /** The text after the last '/'. */
  function LastComponent(p: string): string {
    if p == [] then [] else if p[|p| - 1] == '/' then [] else LastComponent(p[..|p| - 1]) + [p[|p| - 1]]
  }

  /** The `basename` command: trailing slashes ignored, "/" for a path of slashes. */
  function Basename(p: string): string {
    var t := StripTrailingSlashes(p);
    if t == [] then (if p == [] then [] else "/") else LastComponent(t)
  }

  /** One turn of the loop: `deleted_app_path="${deleted_app_path}/$(basename ${deleted_app_path})"`. */
  function NestOnce(p: string): (q: string)
    ensures |q| > |p|
  {
    p + "/" + Basename(p)
  }

  /** The existing paths at least as long as `p`; the loop's variant. */
  function LongerPaths(existing: set<string>, p: string): set<string> {
    set q | q in existing && |q| >= |p|
  }

  lemma {:induction false} SubsetCardinality(a: set<string>, b: set<string>)
    requires a <= b
    ensures |a| <= |b|
    decreases |a|
  {
    if a != {} {
      var x :| x in a;
      SubsetCardinality(a - {x}, b - {x});
    }
  }

  lemma NestShrinksVariant(existing: set<string>, p: string)
    requires p in existing
    ensures |LongerPaths(existing, NestOnce(p))| < |LongerPaths(existing, p)|
  {
    var small, big := LongerPaths(existing, NestOnce(p)), LongerPaths(existing, p);
    assert small <= big - {p};
    SubsetCardinality(small, big - {p});
    assert |big - {p}| == |big| - 1;
  }

  /** Where the loop stops: the first of p, NestOnce(p), ... not in `existing`. */
  function FreeSlot(p: string, existing: set<string>): string
    decreases |LongerPaths(existing, p)|
  {
    if p !in existing then p
    else
      NestShrinksVariant(existing, p);
      FreeSlot(NestOnce(p), existing)
  }

  /** The k-th path the loop tests: p nested k times. */
  function Candidate(p: string, k: nat): string
    decreases k
  {
    if k == 0 then p else Candidate(NestOnce(p), k - 1)
  }

  /** How many turns the loop makes. */
  function Turns(p: string, existing: set<string>): nat
    decreases |LongerPaths(existing, p)|
  {
    if p !in existing then 0
    else
      NestShrinksVariant(existing, p);
      1 + Turns(NestOnce(p), existing)
  }

  /** The loop never moves onto an existing path, it stops at the first free
      candidate, and it turns at most once per existing path. */
  lemma {:induction false} FreeSlotIsFirstFree(p: string, existing: set<string>)
    ensures FreeSlot(p, existing) !in existing
    ensures FreeSlot(p, existing) == Candidate(p, Turns(p, existing))
    ensures forall j :: 0 <= j < Turns(p, existing) ==> Candidate(p, j) in existing
    ensures Turns(p, existing) <= |LongerPaths(existing, p)| <= |existing|
    decreases |LongerPaths(existing, p)|
  {
    SubsetCardinality(LongerPaths(existing, p), existing);
    if p in existing {
      var q := NestOnce(p);
      NestShrinksVariant(existing, p);
      FreeSlotIsFirstFree(q, existing);
      forall j | 0 <= j < Turns(p, existing)
        ensures Candidate(p, j) in existing
      {
        if j > 0 {
          assert Candidate(p, j) == Candidate(q, j - 1);
        }
      }
    }
  }

  // ---------------------------------------------------------------------
  // What the fragments do to the server

  /** The paths that exist, the directories `ls -A` finds non-empty, and the
      owner ("user:group") recorded per path, where `Contents(p)` stands for the
      directory's contents. */
  datatype Fs = Fs(present: set<string>, populated: set<string>, owner: map<string, string>)

  /** The filesystem plus the script's `CREATED` variable. */
  datatype Shell = Shell(fs: Fs, created: bool)

  /** `q` is `p` or lies below it. */
  predicate Within(q: string, p: string) {
    q == p || (|q| > |p| && q[..|p| + 1] == p + "/")
  }

  function Contents(p: string): string { p + "/*" }

  /** Where `mv a dest` puts a path of the moved tree. */
  function Relocate(q: string, a: string, dest: string): (r: string)
    requires Within(q, a)
    ensures Within(r, dest)
    ensures |dest| <= |r| && a + r[|dest|..] == q
  {
    assert q == q[..|a|] + q[|a|..];
    dest + q[|a|..]
  }

  /** A set of paths after the tree at `a` is renamed to `dest`. */
  function MovePaths(s: set<string>, a: string, dest: string): set<string> {
    (set q | q in s && !Within(q, a)) + (set q | q in s && Within(q, a) :: Relocate(q, a, dest))
  }

  /** The recorded owners after the tree at `a` is renamed to `dest`. */
  function MoveOwners(m: map<string, string>, a: string, dest: string): map<string, string> {
    (map q | q in m && !Within(q, a) :: m[q]) + (map q | q in m && Within(q, a) :: Relocate(q, a, dest) := m[q])
  }

  /** The effect of running fragment `f`. `interim` is the filesystem the
      detached placeholder job finds after its `sleep 2`, which other backends
      may have changed meanwhile: the model leaves it unconstrained. */
  function Run(f: Fragment, sh: Shell, interim: Fs): Shell {
    var fs := sh.fs;
    match f
    case CheckDir(a, _) =>
      if a !in fs.present then Shell(fs.(present := fs.present + {a}), true)
      else Shell(fs, a !in fs.populated)
    case CreateDir(a, u, g) =>
      if a !in fs.present then Shell(Fs(fs.present + {a}, fs.populated, fs.owner[a := u + ":" + g]), true)
      else Shell(fs, false)
    case UnderConstruction(a, _, p) =>
      if sh.created && a !in fs.populated then
        if a !in interim.populated then
          Shell(Fs(interim.present + {a}, interim.populated + {a}, interim.owner[Contents(a) := OwnerOf(p)]), true)
        else Shell(interim, true)
      else sh
    case MoveNested(d, a) =>
      var dest := FreeSlot(d, fs.present);
      if a in fs.present && !Within(dest, a) then
        Shell(Fs(MovePaths(fs.present, a, dest), MovePaths(fs.populated, a, dest), MoveOwners(fs.owner, a, dest)),
              sh.created)
      else sh
    case RemoveTree(p) =>
      Shell(Fs(set q | q in fs.present && !Within(q, p),
               set q | q in fs.populated && !Within(q, p),
               map q | q in fs.owner && !Within(q, p) :: fs.owner[q]),
            sh.created)
  }

  /** `create_webapp_dir`: CREATED=1 exactly when the path was absent, and
      only then is it chowned to user:group; otherwise nothing changes. */
  lemma CreateDirEffect(a: string, u: string, g: string, sh: Shell, interim: Fs)
    ensures var r := Run(CreateDir(a, u, g), sh, interim);
      && (r.created <==> a !in sh.fs.present)
      && a in r.fs.present
      && (r.created ==> r.fs.owner == sh.fs.owner[a := u + ":" + g])
      && (!r.created ==> r.fs == sh.fs)
  {
  }

  /** `check_webapp_dir`: CREATED=1 when the path was absent or empty, and
      no ownership changes at all. */
  lemma CheckDirEffect(a: string, s: string, sh: Shell, interim: Fs)
    ensures var r := Run(CheckDir(a, s), sh, interim);
      && (r.created <==> (a !in sh.fs.present || a !in sh.fs.populated))
      && a in r.fs.present
      && r.fs.owner == sh.fs.owner
      && r.fs.populated == sh.fs.populated
  {
  }

  /** The placeholder is copied only when CREATED=1 and the directory was
      empty both when the fragment ran and when the detached job re-checks. */
  lemma UnderConstructionGuard(a: string, src: string, p: Perm, sh: Shell, interim: Fs)
    ensures var r := Run(UnderConstruction(a, src, p), sh, interim);
      var copied := sh.created && a !in sh.fs.populated && a !in interim.populated;
      && (copied ==> a in r.fs.present && a in r.fs.populated && r.fs.owner == interim.owner[Contents(a) := OwnerOf(p)])
      && (!copied ==> r.fs.owner == sh.fs.owner || r.fs.owner == interim.owner)
      && (!sh.created ==> r == sh)
  {
  }

  /** The delete-by-move fragment never lands on an existing path, and it
      carries the whole tree with it: every path, non-empty directory and
      owner below the app path reappears below the destination. Unless the
      destination is an ancestor of the app path (impossible on a real
      filesystem, where the ancestors of an existing path exist), nothing
      remains at or below the app path. `mv` refuses to move a directory
      into itself, so then nothing changes. */
  lemma MoveNeverOverwrites(d: string, a: string, sh: Shell, interim: Fs)
    requires a in sh.fs.present
    ensures var r := Run(MoveNested(d, a), sh, interim);
      var dest := FreeSlot(d, sh.fs.present);
      && dest !in sh.fs.present
      && (Within(dest, a) ==> r == sh)
      && (!Within(dest, a) ==>
            && dest in r.fs.present
            && (forall q :: q in sh.fs.present && Within(q, a) ==> Relocate(q, a, dest) in r.fs.present)
            && (forall q :: q in sh.fs.populated && Within(q, a) ==> Relocate(q, a, dest) in r.fs.populated)
            && (forall q :: q in sh.fs.owner && Within(q, a) ==>
                  Relocate(q, a, dest) in r.fs.owner && r.fs.owner[Relocate(q, a, dest)] == sh.fs.owner[q])
            && (!Within(a, dest) ==> forall q :: q in r.fs.present ==> !Within(q, a)))
  {
    FreeSlotIsFirstFree(d, sh.fs.present);
    var dest := FreeSlot(d, sh.fs.present);
    if !Within(dest, a) {
      assert Within(a, a);
      assert Relocate(a, a, dest) == dest;
      if !Within(a, dest) {
        forall q | q in Run(MoveNested(d, a), sh, interim).fs.present
          ensures !Within(q, a)
        {
          if q !in sh.fs.present || Within(q, a) {
            var o :| o in sh.fs.present && Within(o, a) && q == Relocate(o, a, dest);
            if Within(q, a) {
              WithinComparable(q, a, dest);
            }
          }
        }
      }
    }
  }

  /** Two paths with a common path below both are nested one in the other. */
  lemma WithinComparable(q: string, a: string, b: string)
    requires Within(q, a) && Within(q, b)
    ensures Within(a, b) || Within(b, a)
  {
    assert q[..|a|] == a && q[..|b|] == b;
    if |a| < |b| {
      assert q != a && q[|a|] == '/';
      assert b[..|a| + 1] == q[..|a| + 1] == a + "/";
    } else if |b| < |a| {
      assert q != b && q[|b|] == '/';
      assert a[..|b| + 1] == q[..|b| + 1] == b + "/";
    }
  }

  /** Running the directory fragments a second time changes nothing further:
      the second run only resets CREATED. */
  lemma CreateDirIdempotent(a: string, u: string, g: string, sh: Shell, interim: Fs)
    ensures var once := Run(CreateDir(a, u, g), sh, interim);
      var twice := Run(CreateDir(a, u, g), once, interim);
      twice.fs == once.fs && !twice.created
  {
  }

  lemma CheckDirIdempotent(a: string, s: string, sh: Shell, interim: Fs)
    ensures var once := Run(CheckDir(a, s), sh, interim);
      Run(CheckDir(a, s), once, interim).fs == once.fs
  {
  }

  lemma RemoveTreeIdempotent(p: string, sh: Shell, interim: Fs)
    ensures var once := Run(RemoveTree(p), sh, interim);
      && Run(RemoveTree(p), once, interim) == once
      && forall q :: q in once.fs.present ==> !Within(q, p)
  {
  }
}
