/** The layers, the domains and the table of `lib`, read from the side of the files and of the importers. */
module LayerLaws {
  import opened Wrappers
  import opened LayerRules

  // ---- Layers ---------------------------------------------------------------------------------------

  ghost predicate Under(dir: string, file: string) {
    exists rest: string :: file == dir + "/" + rest
  }

  lemma StartsUnder(dir: string, prefix: string, file: string)
    requires prefix == dir + "/"
    ensures prefix <= file <==> Under(dir, file)
  {
    if prefix <= file { assert file == dir + "/" + file[|prefix|..]; }
  }

  /** The two renderer helpers that `lib` provides. */
  predicate SharedFile(file: string) {
    file == "lib/browser/auth/login-flow.js" || file == "lib/resources/presentation/resource-view.js"
  }

  /** The three entries and `lib` import `lib` only, the renderer only itself and the shared files. */
  lemma LayersAre(source: string, dependency: string)
    ensures LayerAllows(source, dependency) <==>
      && (source == "main.js" || source == "preload.js" || source == "campus-preload.js" || Under("lib", source) ==>
            Under("lib", dependency))
      && (Under("renderer", source) ==> Under("renderer", dependency) || SharedFile(dependency))
  {
    hide Under;
    StartsUnder("lib", "lib/", source);
    StartsUnder("lib", "lib/", dependency);
    StartsUnder("renderer", "renderer/", source);
    StartsUnder("renderer", "renderer/", dependency);
    if InRenderer(source) { assert source[0] == 'r'; }
  }

  // ---- Domains --------------------------------------------------------------------------------------

  /** The same path with its backslashes turned. */
  predicate Turned(file: string, path: string) {
    |path| == |file| && forall i :: 0 <= i < |file| ==> path[i] == if file[i] == '\\' then '/' else file[i]
  }

  /** Backslashes count as slashes. */
  lemma BackslashesAreSlashes(file: string, path: string)
    requires Turned(file, path)
    ensures ProductionDomain(file) == ProductionDomain(path)
  {
    assert ForwardSlashes(file) == path && ForwardSlashes(path) == path;
  }

  lemma TurnedStart(start: string, name: string)
    requires '\\' !in start
    ensures start <= ForwardSlashes(start + name)
  {
  }

  lemma SchemaStart(file: string, dir: string, start: string)
    requires start <= ForwardSlashes(file) && start == "lib/" + dir + "/schema/"
    ensures InSchema(ForwardSlashes(file), dir)
  {
  }

  /** The schema of a profile is part of the profile core. */
  lemma ProfileSchemaIsCore(name: string)
    ensures ProductionDomain("lib/profiles/schema/" + name) == Some(ProfileCore)
  {
    hide ForwardSlashes, InSchema;
    var start := "lib/profiles/schema/";
    TurnedStart(start, name);
    SchemaStart(start + name, "profiles", start);
  }

  /** The schema of a resource is part of the resource core. */
  lemma ResourceSchemaIsCore(name: string)
    ensures ProductionDomain("lib/resources/schema/" + name) == Some(ResourceCore)
  {
    hide ForwardSlashes, InSchema;
    var start := "lib/resources/schema/";
    TurnedStart(start, name);
    SchemaStart(start + name, "resources", start);
    OtherSchema(ForwardSlashes(start + name));
  }

  lemma OtherSchema(path: string)
    requires "lib/resources/schema/" <= path
    ensures !InSchema(path, "profiles")
  {
    var a, b := "lib/resources/schema/", "lib/" + "profiles" + "/schema/";
    assert path[4] == a[4] == 'r' && b[4] == 'p';
  }

  /** The directories of the table and their domains. */
  predicate Holds(dir: string, d: Domain) {
    match d
    case App => dir == "app"
    case Connection => dir == "connection"
    case NetworkEnvironment => dir == "network-environment"
    case ProfileCore => dir == "profile-core"
    case Profiles => dir == "profiles"
    case Persistence => dir == "persistence"
    case Switching => dir == "switching"
    case Browser => dir == "browser"
    case ResourceCore => dir == "resource-core"
    case Resources => dir == "resources"
    case CardBoard => dir == "card-board"
    case Routing => dir == "routing"
    case Integrations => dir == "integrations"
    case Ipc => dir == "ipc"
    case Platform => dir == "platform"
    case Diagnostics => dir == "diagnostics"
    case Legacy => false
    case Unknown => false
  }

  lemma NamedIs(dir: string, d: Domain)
    ensures Holds(dir, d) ==> NamedDomain(dir) == d
    ensures NamedDomain(dir) == d && d != Unknown ==> Holds(dir, d)
  {
  }

  /** A file in a directory of the table is in the domain of that directory, schemas apart. */
  lemma DirectoriesAreDomains(dir: string, name: string, d: Domain)
    requires Holds(dir, d) && '\\' !in name && !("schema/" <= name)
    ensures ProductionDomain("lib/" + dir + "/" + name) == Some(d)
  {
    hide ProductionDomain, NamedDomain;
    NamedIs(dir, d);
    PlainDirectory(dir, d);
    DirectoryIsDomain(dir, name);
  }

  lemma PlainDirectory(dir: string, d: Domain)
    requires Holds(dir, d)
    ensures dir != [] && '/' !in dir && '\\' !in dir
  {
  }

  /** A file in any other directory of `lib` is in no known domain. */
  lemma OtherDirectoriesAreUnknown(dir: string, name: string)
    requires dir != [] && '/' !in dir && '\\' !in dir && '\\' !in name && forall d :: !Holds(dir, d)
    ensures ProductionDomain("lib/" + dir + "/" + name) == Some(Unknown)
  {
    hide IndexOf, InSchema, NamedDomain;
    var file := "lib/" + dir + "/" + name;
    NamedIs(dir, NamedDomain(dir));
    assert !Holds(dir, Profiles) && !Holds(dir, Resources);
    assert ForwardSlashes(file) == file;
    assert file[4..] == dir + "/" + name && file[4 + |dir|] == '/' && file[4..4 + |dir|] == dir;
    forall i | 4 <= i < 4 + |dir| ensures file[i] != '/' { assert file[i] == dir[i - 4]; }
    IndexAt(file[4..], '/', |dir|);
    assert file[4..][..|dir|] == dir;
    NoSchemaPrefix(file, "profiles", 4 + |dir|);
    NoSchemaPrefix(file, "resources", 4 + |dir|);
  }

  /** Files outside `lib` have no domain. */
  lemma OutsideHasNone(file: string)
    requires !("lib/" <= file) && !("lib\\" <= file)
    ensures ProductionDomain(file) == None
  {
    hide InSchema;
    var path := ForwardSlashes(file);
    TurnedLib(file);
    SchemaIsInLib(path, "profiles");
    SchemaIsInLib(path, "resources");
  }

  lemma TurnedLib(file: string)
    ensures "lib/" <= ForwardSlashes(file) ==> "lib/" <= file || "lib\\" <= file
  {
    var path := ForwardSlashes(file);
    if "lib/" <= path {
      assert path[0] == 'l' && path[1] == 'i' && path[2] == 'b' && path[3] == '/';
      assert file[0] == 'l' && file[1] == 'i' && file[2] == 'b' && (file[3] == '/' || file[3] == '\\');
    }
  }

  lemma SchemaIsInLib(path: string, dir: string)
    ensures InSchema(path, dir) ==> "lib/" <= path
  {
    var start := "lib/" + dir + "/schema/";
    if start <= path {
      assert path[0] == start[0] && path[1] == start[1] && path[2] == start[2] && path[3] == start[3];
    }
  }

  // ---- The table, by columns --------------------------------------------------------------------------

  /** Who may import a domain: the columns of the table, whose rows are `Allowed`. */
  predicate Imports(a: Domain, b: Domain) {
    a != Legacy && a != Unknown &&
    match b
    case App => a == App
    case Connection => a == App || a == Connection || a == Switching || a == Integrations || a == Ipc
    case NetworkEnvironment => a == Connection || a == NetworkEnvironment
    case ProfileCore =>
      a != NetworkEnvironment && a != ResourceCore && a != CardBoard && a != Platform && a != Diagnostics
    case Profiles =>
      || a == App || a == Connection || a == Profiles || a == Switching || a == Browser || a == Resources
      || a == Routing || a == Integrations || a == Ipc
    case Persistence => a == App || a == Profiles || a == Persistence || a == Switching || a == Ipc
    case Switching => a == App || a == Switching || a == Ipc
    case Browser => a == App || a == Switching || a == Browser || a == Ipc
    case ResourceCore =>
      || a == App || a == ProfileCore || a == Profiles || a == Persistence || a == Browser || a == ResourceCore
      || a == Resources || a == Integrations
    case Resources => a == App || a == Profiles || a == Browser || a == Resources || a == Integrations
    case CardBoard => a == App || a == CardBoard || a == Ipc
    case Routing =>
      || a == App || a == Profiles || a == Persistence || a == Browser || a == ResourceCore || a == Resources
      || a == Routing || a == Integrations || a == Ipc
    case Integrations => a == App || a == Integrations || a == Ipc
    case Ipc => a == App || a == Ipc
    case Platform => true
    case Diagnostics => true
    case Legacy => true
    case Unknown => false
  }

  lemma ImportersAre(a: Domain, b: Domain)
    ensures b in Allowed(a) <==> Imports(a, b)
  {
    hide Allowed, Imports;
    if a.App? || a.Connection? || a.NetworkEnvironment? || a.ProfileCore? {
      ImportsOfFirst(a, b);
    } else if a.Profiles? || a.Persistence? || a.Switching? || a.Browser? {
      ImportsOfSecond(a, b);
    } else if a.ResourceCore? || a.Resources? || a.CardBoard? || a.Routing? || a.Integrations? {
      ImportsOfThird(a, b);
    } else {
      ImportsOfFourth(a, b);
    }
  }

  lemma ImportsOfFirst(a: Domain, b: Domain)
    requires a.App? || a.Connection? || a.NetworkEnvironment? || a.ProfileCore?
    ensures b in Allowed(a) <==> Imports(a, b)
  {
  }

  lemma ImportsOfSecond(a: Domain, b: Domain)
    requires a.Profiles? || a.Persistence? || a.Switching? || a.Browser?
    ensures b in Allowed(a) <==> Imports(a, b)
  {
  }

  lemma ImportsOfThird(a: Domain, b: Domain)
    requires a.ResourceCore? || a.Resources? || a.CardBoard? || a.Routing? || a.Integrations?
    ensures b in Allowed(a) <==> Imports(a, b)
  {
  }

  lemma ImportsOfFourth(a: Domain, b: Domain)
    requires a.Ipc? || a.Platform? || a.Diagnostics? || a.Legacy? || a.Unknown?
    ensures b in Allowed(a) <==> Imports(a, b)
  {
  }
}
