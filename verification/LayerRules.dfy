/**
 The layer and domain rules of the desktop sources. The rules look at one import at a time;
 the lemmas say what they mean for every path of imports. Files are named by their path
 relative to the desktop root.
 */
module LayerRules {
  import opened Wrappers
  import opened ImportGraph

  datatype Error =
    | LayerViolation(source: string, dependency: string)
    | UnknownDomain(source: string)
    | DomainViolation(source: string, dependency: string)

  const RENDERER_SHARED_SOURCES: set<string> := {
    "lib/browser/auth/login-flow.js",
    "lib/resources/presentation/resource-view.js"
  }

  /** The domains of the table, the legacy root of `lib`, and a directory the table does not list. */
  datatype Domain =
    | App | Connection | NetworkEnvironment | ProfileCore | Profiles | Persistence | Switching | Browser
    | ResourceCore | Resources | CardBoard | Routing | Integrations | Ipc | Platform | Diagnostics
    | Legacy | Unknown

  /** The domain whose table entry has this name. */
  function NamedDomain(name: string): (d: Domain)
    ensures d != Legacy
  {
    if name == "app" then App
    else if name == "connection" then Connection
    else if name == "network-environment" then NetworkEnvironment
    else if name == "profile-core" then ProfileCore
    else if name == "profiles" then Profiles
    else if name == "persistence" then Persistence
    else if name == "switching" then Switching
    else if name == "browser" then Browser
    else if name == "resource-core" then ResourceCore
    else if name == "resources" then Resources
    else if name == "card-board" then CardBoard
    else if name == "routing" then Routing
    else if name == "integrations" then Integrations
    else if name == "ipc" then Ipc
    else if name == "platform" then Platform
    else if name == "diagnostics" then Diagnostics
    else Unknown
  }

  /** The table: what each domain may import. */
  function Allowed(d: Domain): set<Domain> {
    match d
    case App => {App, Connection, Profiles, ProfileCore, Persistence, Switching, Browser,
                 Resources, ResourceCore, CardBoard, Routing, Integrations, Ipc, Platform, Diagnostics, Legacy}
    case Connection => {Connection, NetworkEnvironment, Profiles, ProfileCore, Platform, Diagnostics, Legacy}
    case NetworkEnvironment => {NetworkEnvironment, Platform, Diagnostics, Legacy}
    case ProfileCore => {ProfileCore, ResourceCore, Platform, Diagnostics, Legacy}
    case Profiles => {Profiles, ProfileCore, Persistence, Resources, ResourceCore, Routing, Platform, Diagnostics,
      Legacy}
    case Persistence => {Persistence, ProfileCore, ResourceCore, Routing, Platform, Diagnostics, Legacy}
    case Switching => {Switching, Persistence, Connection, Browser, Profiles, ProfileCore, Platform, Diagnostics,
      Legacy}
    case Browser => {Browser, Resources, ResourceCore, Routing, Profiles, ProfileCore, Platform, Diagnostics, Legacy}
    case ResourceCore => {ResourceCore, Routing, Platform, Diagnostics, Legacy}
    case Resources => {Resources, ResourceCore, Routing, Profiles, ProfileCore, Platform, Diagnostics, Legacy}
    case CardBoard => {CardBoard, Platform, Diagnostics, Legacy}
    case Routing => {Routing, Profiles, ProfileCore, Platform, Diagnostics, Legacy}
    case Integrations => {Integrations, Resources, ResourceCore, Routing, Profiles, ProfileCore, Connection,
                          Platform, Diagnostics, Legacy}
    case Ipc => {Ipc, Connection, Profiles, ProfileCore, Persistence, Switching, Browser, CardBoard, Routing,
                 Integrations, Platform, Diagnostics, Legacy}
    case Platform => {Platform, Diagnostics, Legacy}
    case Diagnostics => {Diagnostics, Platform, Legacy}
    case Legacy => {}
    case Unknown => {}
  }

  predicate InLib(file: string) { "lib/" <= file }

  predicate InRenderer(file: string) { "renderer/" <= file }

  predicate IsEntry(file: string) {
    file == "main.js" || file == "preload.js" || file == "campus-preload.js"
  }

  // ---- Domains --------------------------------------------------------------------------------

  function ForwardSlashes(path: string): (r: string)
    ensures |r| == |path|
    ensures forall i :: 0 <= i < |path| ==> r[i] == if path[i] == '\\' then '/' else path[i]
  {
    seq(|path|, i requires 0 <= i < |path| => if path[i] == '\\' then '/' else path[i])
  }

  function IndexOf(s: string, c: char): (i: nat)
    ensures i <= |s|
  {
    if s == [] || s[0] == c then 0 else 1 + IndexOf(s[1..], c)
  }

  /** The directory right below `lib`, if the file is in one. */
  function LibDirectory(path: string): Option<string>
    requires InLib(path)
  {
    var rest := path[4..];
    var end := IndexOf(rest, '/');
    if 0 < end < |rest| then Some(rest[..end]) else None
  }

  /** The file lies in the schema subtree of a directory of `lib`. */
  predicate InSchema(path: string, dir: string) {
    "lib/" + dir + "/schema/" <= path
  }

  function ProductionDomain(file: string): Option<Domain> {
    var path := ForwardSlashes(file);
    if InSchema(path, "profiles") then Some(ProfileCore)
    else if InSchema(path, "resources") then Some(ResourceCore)
    else if !InLib(path) then None
    else if LibDirectory(path) == None then Some(Legacy)
    else Some(NamedDomain(LibDirectory(path).value))
  }

  lemma LibHasDomain(file: string)
    requires InLib(file)
    ensures ProductionDomain(file).Some?
  {
    assert forall i :: 0 <= i < 4 ==> ForwardSlashes(file)[i] == file[i];
  }

  // ---- The checks -------------------------------------------------------------------------------

  predicate LayerAllows(source: string, dependency: string) {
    if IsEntry(source) || InLib(source) then InLib(dependency)
    else if InRenderer(source) then InRenderer(dependency) || dependency in RENDERER_SHARED_SOURCES
    else true
  }

  ghost predicate IsLayerError(g: Graph, e: Error) {
    e.LayerViolation? && Edge(g, e.source, e.dependency) && !LayerAllows(e.source, e.dependency)
  }

  ghost predicate IsDomainError(g: Graph, e: Error) {
    match e
    case UnknownDomain(source) => source in g && ProductionDomain(source) == Some(Unknown)
    case DomainViolation(source, dependency) =>
      && Edge(g, source, dependency)
      && ProductionDomain(source).Some? && ProductionDomain(source).value !in {Legacy, Unknown}
      && ProductionDomain(dependency).Some?
      && ProductionDomain(dependency).value !in Allowed(ProductionDomain(source).value)
    case _ => false
  }

  /** The layer errors of the imports of one file. */
  method LayerErrorsOf(g: Graph, source: string) returns (errors: seq<Error>)
    ensures forall e :: e in errors <==> IsLayerError(g, e) && e.source == source
  {
    errors := [];
    if !IsEntry(source) && !InLib(source) && !InRenderer(source) { return; }
    var targets := Targets(g, source);
    for i := 0 to |targets|
      invariant forall e :: e in errors <==> IsLayerError(g, e) && e.source == source && e.dependency in targets[..i]
    {
      assert targets[..i + 1] == targets[..i] + [targets[i]];
      assert Edge(g, source, targets[i]);
      if !LayerAllows(source, targets[i]) { errors := errors + [LayerViolation(source, targets[i])]; }
    }
    assert targets[..|targets|] == targets;
  }

  method DependencyLayerErrors(g: Graph) returns (errors: seq<Error>)
    ensures forall e :: e in errors <==> IsLayerError(g, e)
  {
    errors := [];
    var rest := g.Keys;
    while rest != {}
      invariant rest <= g.Keys
      invariant forall e :: e in errors <==> IsLayerError(g, e) && e.source !in rest
      decreases rest
    {
      var source :| source in rest;
      var more := LayerErrorsOf(g, source);
      errors := errors + more;
      rest := rest - {source};
    }
  }

  /** The domain errors of one file. */
  method DomainErrorsOf(g: Graph, source: string) returns (errors: seq<Error>)
    requires source in g
    ensures forall e :: e in errors <==> IsDomainError(g, e) && e.source == source
  {
    errors := [];
    var domain := ProductionDomain(source);
    if domain == None || domain == Some(Legacy) { return; }
    if domain == Some(Unknown) {
      errors := [UnknownDomain(source)];
      return;
    }
    var allowed := Allowed(domain.value);
    var targets := g[source];
    for i := 0 to |targets|
      invariant forall e :: e in errors <==>
          e.DomainViolation? && IsDomainError(g, e) && e.source == source && e.dependency in targets[..i]
    {
      assert targets[..i + 1] == targets[..i] + [targets[i]];
      assert Edge(g, source, targets[i]);
      var dependency := ProductionDomain(targets[i]);
      if dependency.Some? && dependency.value !in allowed {
        errors := errors + [DomainViolation(source, targets[i])];
      }
    }
    assert targets[..|targets|] == targets;
  }

  method DomainDependencyErrors(g: Graph) returns (errors: seq<Error>)
    ensures forall e :: e in errors <==> IsDomainError(g, e)
  {
    errors := [];
    var rest := g.Keys;
    while rest != {}
      invariant rest <= g.Keys
      invariant forall e :: e in errors <==> IsDomainError(g, e) && e.source !in rest
      decreases rest
    {
      var source :| source in rest;
      var more := DomainErrorsOf(g, source);
      errors := errors + more;
      rest := rest - {source};
    }
  }

  // ---- What the checks mean for paths of imports --------------------------------------------------

  ghost predicate LayerClean(g: Graph) {
    forall e :: !IsLayerError(g, e)
  }

  ghost predicate DomainClean(g: Graph) {
    forall e :: !IsDomainError(g, e)
  }

  lemma CleanEdge(g: Graph, a: string, b: string)
    requires LayerClean(g) && Edge(g, a, b)
    ensures LayerAllows(a, b)
  {
    assert !IsLayerError(g, LayerViolation(a, b));
  }

  /** What a file of `lib` imports, directly or not, is in `lib`. */
  lemma {:induction false} LibStaysInLib(g: Graph, w: seq<string>, i: nat)
    requires LayerClean(g) && Walk(g, w) && InLib(w[0]) && i < |w|
    ensures InLib(w[i])
    decreases i
  {
    if i > 0 {
      LibStaysInLib(g, w, i - 1);
      assert Edge(g, w[i - 1], w[i - 1 + 1]);
      CleanEdge(g, w[i - 1], w[i]);
    }
  }

  lemma SharedIsInLib(file: string)
    requires file in RENDERER_SHARED_SOURCES
    ensures InLib(file)
  {
    assert |file| >= 4 && file[0] == 'l' && file[1] == 'i' && file[2] == 'b' && file[3] == '/';
  }

  /** A path from a renderer file stays in the renderer until it enters `lib` through a listed
      shared source; from then on it stays in `lib`. */
  lemma {:induction false} RendererEntersThroughShared(g: Graph, w: seq<string>) returns (k: nat)
    requires LayerClean(g) && Walk(g, w) && InRenderer(w[0])
    ensures 0 < k <= |w| && forall i :: 0 <= i < k ==> InRenderer(w[i])
    ensures k < |w| ==> w[k] in RENDERER_SHARED_SOURCES && forall i :: k <= i < |w| ==> InLib(w[i])
    decreases |w|
  {
    if |w| == 1 { return 1; }
    assert Edge(g, w[0], w[0 + 1]);
    CleanEdge(g, w[0], w[1]);
    assert w[0][0] == 'r';
    var rest := w[1..];
    forall i | 0 <= i < |rest| - 1 ensures Edge(g, rest[i], rest[i + 1]) { assert Edge(g, w[i + 1], w[i + 1 + 1]); }
    if InRenderer(w[1]) {
      var j := RendererEntersThroughShared(g, rest);
      k := j + 1;
      forall i | 0 <= i < k ensures InRenderer(w[i]) { if i > 0 { assert w[i] == rest[i - 1]; } }
      if k < |w| { assert w[k] == rest[j]; }
      forall i | k <= i < |w| ensures InLib(w[i]) { assert w[i] == rest[i - 1]; }
    } else {
      k := 1;
      assert w[1] in RENDERER_SHARED_SOURCES && rest[0] == w[1];
      SharedIsInLib(w[1]);
      forall i | k <= i < |w| ensures InLib(w[i]) {
        LibStaysInLib(g, rest, i - 1);
        assert w[i] == rest[i - 1];
      }
    }
  }

  /** Each domain may import the next. */
  ghost predicate DomainPath(ds: seq<Domain>) {
    |ds| > 0 && forall i :: 0 <= i < |ds| - 1 ==> ds[i + 1] in Allowed(ds[i])
  }

  /** The transitive closure of the table. */
  ghost predicate MayReach(a: Domain, b: Domain) {
    exists ds :: DomainPath(ds) && ds[0] == a && ds[|ds| - 1] == b
  }

  /** The domains a path through `lib` visits. */
  ghost function Domains(w: seq<string>): seq<Domain>
    requires forall i :: 0 <= i < |w| ==> ProductionDomain(w[i]).Some?
  {
    seq(|w|, i requires 0 <= i < |w| => ProductionDomain(w[i]).value)
  }

  /** No file that imports on from the path lies in the legacy root. */
  ghost predicate AvoidsLegacy(w: seq<string>) {
    forall i :: 0 <= i < |w| - 1 ==> ProductionDomain(w[i]) != Some(Legacy)
  }

  /** A path from `lib` that avoids the legacy root visits its domains along allowed dependencies. */
  lemma DomainsFollowTheTable(g: Graph, w: seq<string>)
    requires LayerClean(g) && DomainClean(g) && Walk(g, w) && InLib(w[0]) && AvoidsLegacy(w)
    ensures forall i :: 0 <= i < |w| ==> ProductionDomain(w[i]).Some?
    ensures DomainPath(Domains(w))
  {
    hide ProductionDomain, Allowed;
    forall i | 0 <= i < |w| ensures ProductionDomain(w[i]).Some? {
      LibStaysInLib(g, w, i);
      LibHasDomain(w[i]);
    }
    forall i | 0 <= i < |w| - 1 ensures Domains(w)[i + 1] in Allowed(Domains(w)[i]) {
      assert Edge(g, w[i], w[i + 1]);
      EdgeFiles(g, w[i], w[i + 1]);
      assert !IsDomainError(g, UnknownDomain(w[i]));
      assert !IsDomainError(g, DomainViolation(w[i], w[i + 1]));
    }
  }

  /** So every file on it is in a domain that the first file's domain may reach. */
  lemma LaterDomainsAreReached(g: Graph, w: seq<string>, i: nat)
    requires LayerClean(g) && DomainClean(g) && Walk(g, w) && InLib(w[0]) && AvoidsLegacy(w) && i < |w|
    ensures ProductionDomain(w[0]).Some? && ProductionDomain(w[i]).Some?
    ensures MayReach(ProductionDomain(w[0]).value, ProductionDomain(w[i]).value)
  {
    hide ProductionDomain, Allowed;
    DomainsFollowTheTable(g, w);
    var ds := Domains(w)[..i + 1];
    assert DomainPath(ds) && ds[0] == ProductionDomain(w[0]).value && ds[|ds| - 1] == ProductionDomain(w[i]).value;
  }

  // ---- Consequences of the table --------------------------------------------------------------------

  /** A set of domains that the table leads nowhere out of. */
  ghost predicate Sealed(domains: set<Domain>) {
    forall a :: a in domains ==> Allowed(a) <= domains
  }

  lemma {:induction false} SealedHoldsPath(domains: set<Domain>, ds: seq<Domain>, i: nat)
    requires Sealed(domains) && DomainPath(ds) && ds[0] in domains && i < |ds|
    ensures ds[i] in domains
    decreases i
  {
    hide Allowed;
    if i > 0 {
      SealedHoldsPath(domains, ds, i - 1);
      assert ds[i - 1 + 1] in Allowed(ds[i - 1]);
    }
  }

  /** Platform and diagnostics reach only each other and the legacy root. */
  lemma FoundationReachesFoundation(a: Domain, b: Domain)
    requires MayReach(a, b) && a in {Platform, Diagnostics}
    ensures b in {Platform, Diagnostics, Legacy}
  {
    var ds :| DomainPath(ds) && ds[0] == a && ds[|ds| - 1] == b;
    SealedHoldsPath({Platform, Diagnostics, Legacy}, ds, |ds| - 1);
  }

  lemma WhoImportsComposition(a: Domain)
    ensures App in Allowed(a) ==> a == App
    ensures Ipc in Allowed(a) ==> a in {App, Ipc}
  {
  }

  lemma {:induction false} CompositionComesFirst(ds: seq<Domain>, i: nat)
    requires DomainPath(ds) && i < |ds|
    ensures ds[i] == App ==> ds[0] == App
    ensures ds[i] == Ipc ==> ds[0] in {App, Ipc}
    decreases i
  {
    hide Allowed;
    if i > 0 {
      CompositionComesFirst(ds, i - 1);
      assert ds[i - 1 + 1] in Allowed(ds[i - 1]);
      WhoImportsComposition(ds[i - 1]);
    }
  }

  /** Only application code reaches application code, and only application and IPC code reaches IPC. */
  lemma OnlyCompositionReachesComposition(a: Domain, b: Domain)
    requires MayReach(a, b)
    ensures b == App ==> a == App
    ensures b == Ipc ==> a in {App, Ipc}
  {
    var ds :| DomainPath(ds) && ds[0] == a && ds[|ds| - 1] == b;
    CompositionComesFirst(ds, |ds| - 1);
  }

  // ---- The legacy root --------------------------------------------------------------------------------

  lemma {:induction false} IndexAt(s: string, c: char, i: nat)
    requires i < |s| && s[i] == c && forall j :: 0 <= j < i ==> s[j] != c
    ensures IndexOf(s, c) == i
    decreases i
  {
    if i > 0 { IndexAt(s[1..], c, i - 1); }
  }

  lemma {:induction false} IndexNowhere(s: string, c: char)
    requires c !in s
    ensures IndexOf(s, c) == |s|
    decreases |s|
  {
    if s != [] { IndexNowhere(s[1..], c); }
  }

  /** A file whose directory below `lib` ends at `end` is in no schema subtree of another name. */
  lemma NoSchemaPrefix(file: string, schema: string, end: nat)
    requires "lib/" <= file && 4 <= end <= |file|
    requires forall i :: 4 <= i < end ==> file[i] != '/'
    requires end == |file| || (file[end] == '/' && file[4..end] != schema)
    requires '/' !in schema
    ensures !InSchema(file, schema)
  {
    var p := "lib/" + schema + "/schema/";
    assert p[4 + |schema|] == '/' && p[4..4 + |schema|] == schema;
  }

  /** A file in a directory of `lib` is in the domain named like it, unless it is in a schema subtree. */
  lemma DirectoryIsDomain(dir: string, name: string)
    requires dir != [] && '/' !in dir && '\\' !in dir && '\\' !in name && !("schema/" <= name)
    ensures ProductionDomain("lib/" + dir + "/" + name) == Some(NamedDomain(dir))
  {
    hide NamedDomain, IndexOf, InSchema;
    var file := "lib/" + dir + "/" + name;
    assert ForwardSlashes(file) == file;
    assert file[4..] == dir + "/" + name && file[4 + |dir|] == '/' && file[4..4 + |dir|] == dir;
    forall i | 4 <= i < 4 + |dir| ensures file[i] != '/' { assert file[i] == dir[i - 4]; }
    IndexAt(file[4..], '/', |dir|);
    assert file[4..][..|dir|] == dir;
    if dir == "profiles" { NotInSchema(dir, name); } else { NoSchemaPrefix(file, "profiles", 4 + |dir|); }
    if dir == "resources" { NotInSchema(dir, name); } else { NoSchemaPrefix(file, "resources", 4 + |dir|); }
  }

  lemma NotInSchema(dir: string, name: string)
    requires !("schema/" <= name)
    ensures !InSchema("lib/" + dir + "/" + name, dir)
  {
    PrefixBehind("lib/" + dir + "/", "schema/", name);
    assert "lib/" + dir + "/" + "schema/" == "lib/" + dir + "/schema/";
  }

  lemma PrefixBehind(base: string, x: string, y: string)
    ensures base + x <= base + y ==> x <= y
  {
    var a, b := base + x, base + y;
    if a <= b {
      forall i | 0 <= i < |x| ensures x[i] == y[i] { assert x[i] == a[|base| + i] == b[|base| + i]; }
    }
  }

  /** A file directly in `lib` is in the legacy domain. */
  lemma RootIsLegacy(name: string)
    requires '/' !in name && '\\' !in name
    ensures ProductionDomain("lib/" + name) == Some(Legacy)
  {
    hide IndexOf, InSchema;
    var file := "lib/" + name;
    assert ForwardSlashes(file) == file && file[4..] == name;
    IndexNowhere(name, '/');
    forall i | 4 <= i < |file| ensures file[i] != '/' { assert file[i] == name[i - 4]; }
    NoSchemaPrefix(file, "profiles", |file|);
    NoSchemaPrefix(file, "resources", |file|);
  }

  /** Files in the root of `lib` are not checked as importers, so a path through one escapes the
      table. Whatever the domains of two directories, one such file lets the first reach the second
      without an error. */
  lemma LegacyEscapes(from: string, to: string)
    requires from != [] && '/' !in from && '\\' !in from
    requires to != [] && '/' !in to && '\\' !in to
    requires NamedDomain(from) != Unknown && NamedDomain(to) != Unknown && from != to
    ensures var a, b, c := "lib/" + from + "/a.js", "lib/old.js", "lib/" + to + "/b.js";
            var g: Graph := map[a := [b], b := [c], c := []];
            && LayerClean(g) && DomainClean(g) && Reaches(g, a, c)
            && ProductionDomain(a) == Some(NamedDomain(from)) && ProductionDomain(c) == Some(NamedDomain(to))
  {
    EscapeDomains(from, to);
    EscapeIsClean("lib/" + from + "/a.js", "lib/old.js", "lib/" + to + "/b.js");
  }

  /** A chain of three files whose middle one is in the legacy root passes both checks. */
  lemma EscapeIsClean(a: string, b: string, c: string)
    requires a != b && b != c && a != c && InLib(a) && InLib(b) && InLib(c)
    requires ProductionDomain(a).Some? && ProductionDomain(a).value !in {Legacy, Unknown}
    requires ProductionDomain(b) == Some(Legacy)
    requires ProductionDomain(c).Some? && ProductionDomain(c).value !in {Legacy, Unknown}
    ensures var g: Graph := map[a := [b], b := [c], c := []]; LayerClean(g) && DomainClean(g) && Reaches(g, a, c)
  {
    hide ProductionDomain, NamedDomain, Allowed;
    var g: Graph := map[a := [b], b := [c], c := []];
    assert Edge(g, a, b) && Edge(g, b, c);
    assert WalkBetween(g, [a, b, c], a, c);
    LegacyIsAllowed(ProductionDomain(a).value);
  }

  lemma EscapeDomains(from: string, to: string)
    requires from != [] && '/' !in from && '\\' !in from
    requires to != [] && '/' !in to && '\\' !in to && from != to
    ensures ProductionDomain("lib/" + from + "/a.js") == Some(NamedDomain(from))
    ensures ProductionDomain("lib/" + to + "/b.js") == Some(NamedDomain(to))
    ensures ProductionDomain("lib/old.js") == Some(Legacy)
    ensures "lib/" + from + "/a.js" != "lib/old.js" && "lib/" + to + "/b.js" != "lib/old.js"
    ensures "lib/" + from + "/a.js" != "lib/" + to + "/b.js"
  {
    hide ProductionDomain, NamedDomain, ForwardSlashes;
    DirectoryIsDomain(from, "a.js");
    DirectoryIsDomain(to, "b.js");
    RootIsLegacy("old.js");
    assert "lib/" + from + "/" + "a.js" == "lib/" + from + "/a.js";
    assert "lib/" + to + "/" + "b.js" == "lib/" + to + "/b.js";
    assert "lib/" + "old.js" == "lib/old.js";
    var x, y := "lib/" + from + "/a.js", "lib/" + to + "/b.js";
    assert x[|x| - 4] == 'a' && y[|y| - 4] == 'b' && "lib/old.js"[6] == 'd' && |"lib/old.js"| == 10;
  }

  lemma LegacyIsAllowed(d: Domain)
    requires d !in {Legacy, Unknown}
    ensures Legacy in Allowed(d)
  {
  }
}
