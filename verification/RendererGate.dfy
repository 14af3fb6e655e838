/**
 The renderer boundary gate: a registry of features, one record per renderer file, and the
 checks on single files and imports; then what an error-free gate means for every path of
 imports.
 */
module RendererGate {
  import opened Wrappers
  import opened ImportGraph
  import opened Identifiers
  import opened Paths
  import RendererCycles

  datatype Feature = Feature(id: string, root: string, entrypoint: string, exports: seq<string>,
                             allowedDependencies: seq<string>)

  datatype Registry = Registry(bootstraps: seq<string>, legacyGlobals: map<string, seq<string>>, features: seq<Feature>)

  /** An import as written, and the path it normalizes to from its file. */
  datatype Import = Import(specifier: string, relative: string)

  /** What the source analysis says of a file; `isModule` is missing if it could not be parsed. */
  datatype Record = Record(
    isModule: Option<bool>,
    htmlModule: bool,
    exports: seq<string>,
    moduleExports: seq<string>,
    imports: seq<Import>,
    globalReads: nat,
    errors: seq<string>)

  type Records = map<string, Record>

  /** A script that an HTML page loads. */
  datatype Script = Script(page: string, file: string, isModule: bool)

  datatype RegistryError = BadSchema | BadLegacyExport | BadOwnership | BadBootstrap | BadDependency

  datatype Error =
    | InvalidRegistry(cause: RegistryError)
    | UnapprovedScript(page: string, file: string)
    | ScriptModeMismatch(page: string, file: string)
    | MissingBootstrap(file: string)
    | BootstrapNotModule(file: string)
    | StaleLegacyOwner(file: string)
    | RetiredGlobal(file: string, name: string)
    | MissingEntrypoint(file: string)
    | PublicExportsChanged(file: string)
    | UnapprovedHtmlModule(file: string)
    | UnownedSource(file: string)
    | UnregisteredClassic(file: string)
    | UnownedFeatureSource(file: string)
    | AnalysisError(file: string, message: string)
    | UnapprovedGlobal(file: string, name: string)
    | FeatureUsesGlobals(file: string)
    | NonLocalImport(file: string)
    | UnresolvedImport(file: string, specifier: string)
    | PrivateImport(file: string, target: string)
    | DisallowedDependency(file: string, target: string)
    | ImportCycle(file: string)

  // ---- The registry ---------------------------------------------------------------------------

  predicate IsWord(c: char) { IsLower(c) || 'A' <= c <= 'Z' || '0' <= c <= '9' || c == '_' }

  predicate IsName(name: string) {
    |name| > 0 && (IsWord(name[0]) || name[0] == '$') && !('0' <= name[0] <= '9') &&
    forall i :: 1 <= i < |name| ==> IsWord(name[i]) || name[i] == '$'
  }

  predicate IsGlobalName(name: string) {
    IsName(name) || ("@binding:" <= name && IsName(name[9..]))
  }

  predicate IsScript(file: string) {
    EndsWith(file, ".js") || EndsWith(file, ".mjs")
  }

  /** Path normalization leaves the path as it is. */
  predicate IsNormal(path: string) {
    path == "." ||
    var parts := Segments(path);
    forall i :: 0 <= i < |parts| ==> parts[i] != "." && (parts[i] != "" || (i == |parts| - 1 && i > 0))
  }

  predicate SafePath(path: string) {
    && |path| > 0
    && (forall i :: 0 <= i < |path| ==> IsWord(path[i]) || path[i] in {'.', '/', '-'})
    && path[0] != '/'
    && ".." !in Segments(path)
    && IsNormal(path)
  }

  predicate Unique(items: seq<string>) {
    forall i, j :: 0 <= i < j < |items| ==> items[i] != items[j]
  }

  predicate StringList(items: seq<string>) {
    |items| <= 256 && (forall x :: x in items ==> 1 <= |x| <= 160) && Unique(items)
  }

  predicate Below(root: string, file: string) {
    root + "/" <= file
  }

  predicate ValidLegacy(file: string, names: seq<string>) {
    SafePath(file) && IsScript(file) && StringList(names) && |names| > 0 && forall x :: x in names ==> IsGlobalName(x)
  }

  predicate ValidFeature(f: Feature) {
    && IsId(f.id)
    && f.root == "renderer/features/" + f.id
    && f.entrypoint == f.root + "/index.mjs"
    && StringList(f.exports) && |f.exports| > 0 && (forall x :: x in f.exports ==> IsName(x))
    && StringList(f.allowedDependencies)
  }

  predicate ValidBootstrap(r: Registry, file: string) {
    && SafePath(file) && "renderer/" <= file && IsScript(file) && RendererStem(file)
    && file !in r.legacyGlobals
    && forall f :: f in r.features ==> !Below(f.root, file)
  }

  /** Something stands between the renderer directory and the script suffix. */
  predicate RendererStem(file: string) {
    (EndsWith(file, ".js") && |file| > 12) || (EndsWith(file, ".mjs") && |file| > 13)
  }

  predicate SchemaShape(r: Registry) {
    StringList(r.bootstraps) && r.bootstraps != [] && |r.legacyGlobals| <= 128 && |r.features| <= 64
  }

  function Ids(features: seq<Feature>): set<string> {
    set f | f in features :: f.id
  }

  predicate DependsOnOthers(f: Feature, ids: set<string>) {
    forall id :: id in f.allowedDependencies ==> id in ids && id != f.id
  }

  ghost predicate ValidRegistry(r: Registry) {
    && SchemaShape(r)
    && (forall file :: file in r.legacyGlobals ==> ValidLegacy(file, r.legacyGlobals[file]))
    && ValidFeatures(r.features)
    && (forall file :: file in r.bootstraps ==> ValidBootstrap(r, file))
    && (forall f :: f in r.features ==> DependsOnOthers(f, Ids(r.features)))
  }

  ghost predicate ValidFeatures(features: seq<Feature>) {
    && (forall f :: f in features ==> ValidFeature(f))
    && (forall i, j :: 0 <= i < j < |features| ==> features[i].id != features[j].id)
  }

  lemma OneMoreFeature(features: seq<Feature>, f: Feature)
    ensures Ids(features + [f]) == Ids(features) + {f.id}
    ensures ValidFeatures(features + [f]) <==> ValidFeatures(features) && ValidFeature(f) && f.id !in Ids(features)
  {
    hide ValidFeature;
    var more := features + [f];
    assert more[|features|] == f;
    if ValidFeatures(more) {
      forall g | g in features ensures ValidFeature(g) { assert g in more; }
      forall i, j | 0 <= i < j < |features|
        ensures features[i].id != features[j].id
      {
        assert more[i].id != more[j].id;
      }
      forall g | g in features ensures g.id != f.id {
        var i :| 0 <= i < |features| && features[i] == g;
        assert more[i].id != more[|features|].id;
      }
      assert f in more;
    }
  }

  lemma FeaturesPrefix(features: seq<Feature>, i: nat)
    requires i <= |features|
    ensures ValidFeatures(features) ==> ValidFeatures(features[..i])
  {
    hide ValidFeature;
  }

  /** Walks the features with the growing set of their ids. */
  method ValidateFeatures(features: seq<Feature>) returns (ok: bool, ids: set<string>)
    ensures ok == ValidFeatures(features) && (ok ==> ids == Ids(features))
  {
    hide ValidFeature, ValidFeatures, Ids;
    ids := {};
    OneMoreFeatureNone();
    for i := 0 to |features|
      invariant ids == Ids(features[..i]) && ValidFeatures(features[..i])
    {
      var f := features[i];
      assert features[..i + 1] == features[..i] + [f];
      OneMoreFeature(features[..i], f);
      if !ValidFeature(f) || f.id in ids {
        assert !ValidFeatures(features[..i + 1]);
        FeaturesPrefix(features, i + 1);
        return false, ids;
      }
      ids := ids + {f.id};
    }
    assert features[..|features|] == features;
    ok := true;
  }

  lemma OneMoreFeatureNone()
    ensures Ids([]) == {} && ValidFeatures([])
  {
  }

  ghost predicate LegacyListValid(r: Registry) {
    forall file :: file in r.legacyGlobals ==> ValidLegacy(file, r.legacyGlobals[file])
  }

  ghost predicate BootstrapsValid(r: Registry) {
    forall file :: file in r.bootstraps ==> ValidBootstrap(r, file)
  }

  /** The first complaint about the registry; there is none exactly if the registry is valid. */
  method ValidateRegistry(r: Registry) returns (cause: Option<RegistryError>)
    ensures cause == None <==> ValidRegistry(r)
    ensures cause == Some(BadSchema) <==> !SchemaShape(r)
    ensures cause == Some(BadLegacyExport) <==> SchemaShape(r) && !LegacyListValid(r)
    ensures cause == Some(BadOwnership) <==> SchemaShape(r) && LegacyListValid(r) && !ValidFeatures(r.features)
    ensures cause == Some(BadBootstrap) <==>
      SchemaShape(r) && LegacyListValid(r) && ValidFeatures(r.features) && !BootstrapsValid(r)
  {
    hide SchemaShape, ValidLegacy, ValidFeatures, ValidBootstrap, Ids, DependsOnOthers;
    if !SchemaShape(r) { return Some(BadSchema); }
    if exists file :: file in r.legacyGlobals.Keys && !ValidLegacy(file, r.legacyGlobals[file]) {
      return Some(BadLegacyExport);
    }
    var ok, ids := ValidateFeatures(r.features);
    if !ok { return Some(BadOwnership); }
    if exists file :: file in r.bootstraps && !ValidBootstrap(r, file) { return Some(BadBootstrap); }
    if exists f :: f in r.features && !DependsOnOthers(f, ids) { return Some(BadDependency); }
    cause := None;
  }

  // ---- Owners -----------------------------------------------------------------------------------

  /** The first feature whose directory holds the file. */
  function FindOwner(features: seq<Feature>, file: string): (o: Option<Feature>)
    ensures o.Some? ==> o.value in features && Below(o.value.root, file)
    ensures o.None? ==> forall f :: f in features ==> !Below(f.root, file)
  {
    if features == [] then None
    else if Below(features[0].root, file) then Some(features[0])
    else FindOwner(features[1..], file)
  }

  function Owner(r: Registry, file: string): Option<Feature> {
    FindOwner(r.features, file)
  }

  lemma SlashEndsId(a: string, b: string, file: string)
    requires '/' !in a && '/' !in b
    requires Below("renderer/features/" + a, file) && Below("renderer/features/" + b, file)
    ensures a == b
  {
    var base := "renderer/features/";
    assert |base| == 18;
    var x, y := base + a + "/", base + b + "/";
    assert file[18 + |a|] == x[18 + |a|] == '/' && file[18 + |b|] == y[18 + |b|] == '/';
    assert file[18..18 + |a|] == x[18..18 + |a|] == a;
    assert file[18..18 + |b|] == y[18..18 + |b|] == b;
  }

  lemma IdHasNoSlash(id: string)
    requires IsId(id)
    ensures '/' !in id
  {
  }

  /** Valid ids make owners unique: a file is in the directory of at most one feature, so it does
      not matter that the first match is taken. */
  lemma OwnerIsUnique(r: Registry, file: string, f: Feature)
    requires ValidRegistry(r)
    ensures f in r.features && Below(f.root, file) <==> Owner(r, file) == Some(f)
  {
    if f in r.features && Below(f.root, file) {
      var o := Owner(r, file).value;
      assert ValidFeature(f) && ValidFeature(o);
      IdHasNoSlash(f.id);
      IdHasNoSlash(o.id);
      SlashEndsId(f.id, o.id, file);
      var i :| 0 <= i < |r.features| && r.features[i] == f;
      var j :| 0 <= j < |r.features| && r.features[j] == o;
      assert i == j;
    }
  }

  // ---- Imports ----------------------------------------------------------------------------------

  predicate IsLocal(specifier: string) {
    |specifier| > 0 && specifier[0] == '.' && '\\' !in specifier && '?' !in specifier && '#' !in specifier
  }

  /** The file an import names, with its suffix or its directory index filled in. */
  function Resolve(records: Records, relative: string): (t: Option<string>)
    ensures t.Some? ==> t.value in records
  {
    if relative in records then Some(relative)
    else if relative + ".js" in records then Some(relative + ".js")
    else if relative + "/index.js" in records then Some(relative + "/index.js")
    else None
  }

  function TargetOf(records: Records, i: Import): Option<string> {
    if IsLocal(i.specifier) then Resolve(records, i.relative) else None
  }

  /** The files the imports of one record resolve to, in order. */
  function ResolvedTargets(records: Records, imports: seq<Import>): seq<string> {
    if imports == [] then []
    else
      var last := |imports| - 1;
      var before := ResolvedTargets(records, imports[..last]);
      var t := TargetOf(records, imports[last]);
      if t.Some? then before + [t.value] else before
  }

  function GraphOf(records: Records): Graph {
    map file | file in records :: ResolvedTargets(records, records[file].imports)
  }

  lemma {:induction false} TargetHasImport(records: Records, imports: seq<Import>, t: string)
    requires t in ResolvedTargets(records, imports)
    ensures t in records && exists i :: 0 <= i < |imports| && TargetOf(records, imports[i]) == Some(t)
    decreases |imports|
  {
    var last := |imports| - 1;
    if TargetOf(records, imports[last]) != Some(t) {
      TargetHasImport(records, imports[..last], t);
      var i :| 0 <= i < last && TargetOf(records, imports[..last][i]) == Some(t);
      assert TargetOf(records, imports[i]) == Some(t);
    }
  }

  /** A file outside the feature enters it through its entrypoint only. */
  predicate EntersProperly(r: Registry, file: string, target: string) {
    var current, dependency := Owner(r, file), Owner(r, target);
    dependency.Some? && (current.None? || current.value.id != dependency.value.id) ==>
      target == dependency.value.entrypoint
  }

  /** A feature file imports its own feature or an allowed one, and nothing unowned. */
  predicate DependsProperly(r: Registry, file: string, target: string) {
    var current, dependency := Owner(r, file), Owner(r, target);
    current.Some? ==>
      dependency.Some? &&
      (current.value.id == dependency.value.id || dependency.value.id in current.value.allowedDependencies)
  }

  /** What one import is to be reported for. */
  predicate ImportFault(r: Registry, records: Records, file: string, i: Import, e: Error) {
    match e
    case NonLocalImport(f) => f == file && !IsLocal(i.specifier)
    case UnresolvedImport(f, specifier) => f == file && specifier == i.specifier && IsLocal(specifier) &&
      Resolve(records, i.relative).None?
    case PrivateImport(f, target) => f == file && TargetOf(records, i) == Some(target) &&
      !EntersProperly(r, file, target)
    case DisallowedDependency(f, target) => f == file && TargetOf(records, i) == Some(target) &&
      !DependsProperly(r, file, target)
    case _ => false
  }

  /** The errors of one import; an import that is not local or not found is checked no further. */
  function ImportErrors(r: Registry, records: Records, file: string, i: Import): (errors: seq<Error>)
    ensures forall e :: e in errors <==> ImportFault(r, records, file, i, e)
  {
    if !IsLocal(i.specifier) then [NonLocalImport(file)]
    else
      var t := Resolve(records, i.relative);
      if t == None then [UnresolvedImport(file, i.specifier)]
      else
        (if EntersProperly(r, file, t.value) then [] else [PrivateImport(file, t.value)]) +
        (if DependsProperly(r, file, t.value) then [] else [DisallowedDependency(file, t.value)])
  }

  // ---- The checks on one file -------------------------------------------------------------------

  predicate IsLegacy(r: Registry, file: string) { file in r.legacyGlobals }

  predicate GlobalAllowed(r: Registry, file: string, name: string) {
    file in r.legacyGlobals && name in r.legacyGlobals[file]
  }

  /** What one file is to be reported for, imports included. */
  ghost predicate RecordFault(r: Registry, records: Records, file: string, e: Error)
    requires file in records
  {
    var record, owned := records[file], Owner(r, file).Some?;
    || OwnershipFault(r, file, record, owned, e)
    || (e.AnalysisError? && e.file == file && e.message in record.errors)
    || (e.UnapprovedGlobal? && e.file == file && e.name in record.exports && !GlobalAllowed(r, file, e.name))
    || (e == FeatureUsesGlobals(file) && owned && (record.globalReads > 0 || record.exports != []))
    || (exists i :: i in record.imports && ImportFault(r, records, file, i, e))
  }

  method RecordErrors(r: Registry, records: Records, file: string) returns (errors: seq<Error>, targets: seq<string>)
    requires file in records
    ensures forall e :: e in errors <==> RecordFault(r, records, file, e)
    ensures targets == ResolvedTargets(records, records[file].imports)
  {
    hide OwnershipFault, ImportFault, GlobalAllowed, ImportErrors, OwnershipErrors;
    var record, owned := records[file], Owner(r, file).Some?;
    errors := OwnershipErrors(r, file, record, owned);
    ghost var before := errors;
    for i := 0 to |record.errors|
      invariant forall e :: e in errors <==>
        e in before || (e.AnalysisError? && e.file == file && e.message in record.errors[..i])
    {
      assert record.errors[..i + 1] == record.errors[..i] + [record.errors[i]];
      errors := errors + [AnalysisError(file, record.errors[i])];
    }
    before := errors;
    for i := 0 to |record.exports|
      invariant forall e :: e in errors <==> (e in before ||
        (e.UnapprovedGlobal? && e.file == file && e.name in record.exports[..i] && !GlobalAllowed(r, file, e.name)))
    {
      assert record.exports[..i + 1] == record.exports[..i] + [record.exports[i]];
      if !GlobalAllowed(r, file, record.exports[i]) { errors := errors + [UnapprovedGlobal(file, record.exports[i])]; }
    }
    if owned && (record.globalReads > 0 || record.exports != []) { errors := errors + [FeatureUsesGlobals(file)]; }
    before := errors;
    targets := [];
    for i := 0 to |record.imports|
      invariant forall e :: e in errors <==>
        e in before || exists j :: 0 <= j < i && ImportFault(r, records, file, record.imports[j], e)
      invariant targets == ResolvedTargets(records, record.imports[..i])
    {
      var current := record.imports[i];
      assert record.imports[..i + 1][..i] == record.imports[..i] && record.imports[..i + 1][i] == current;
      errors := errors + ImportErrors(r, records, file, current);
      var t := TargetOf(records, current);
      if t.Some? { targets := targets + [t.value]; }
    }
    assert record.imports[..|record.imports|] == record.imports;
    assert record.errors[..|record.errors|] == record.errors && record.exports[..|record.exports|] == record.exports;
  }

  /** No owner beside a feature, the legacy list or the bootstraps is known for the file. */
  predicate OwnershipFault(r: Registry, file: string, record: Record, owned: bool, e: Error) {
    match e
    case UnapprovedHtmlModule(f) => f == file && record.htmlModule && file !in r.bootstraps && !IsLegacy(r, file)
    case UnownedSource(f) => f == file && !owned && !IsLegacy(r, file) && file !in r.bootstraps
    case UnregisteredClassic(f) => f == file && record.isModule == Some(false) && !IsLegacy(r, file)
    case UnownedFeatureSource(f) => f == file && "renderer/features/" <= file && !owned && file !in r.bootstraps
    case _ => false
  }

  /** The error, if there is cause for it. */
  function Cause(cause: bool, e: Error): (errors: seq<Error>)
    ensures forall x :: x in errors <==> cause && x == e
  {
    if cause then [e] else []
  }

  function OwnershipErrors(r: Registry, file: string, record: Record, owned: bool): (errors: seq<Error>)
    ensures forall e :: e in errors <==> OwnershipFault(r, file, record, owned, e)
  {
    hide Cause;
    var listed := file in r.bootstraps;
    var legacy := IsLegacy(r, file);
    Cause(record.htmlModule && !listed && !legacy, UnapprovedHtmlModule(file)) +
    Cause(!owned && !legacy && !listed, UnownedSource(file)) +
    Cause(record.isModule == Some(false) && !legacy, UnregisteredClassic(file)) +
    Cause("renderer/features/" <= file && !owned && !listed, UnownedFeatureSource(file))
  }

  // ---- The checks on the registry against the records ---------------------------------------------

  predicate ScriptFault(r: Registry, records: Records, s: Script, e: Error) {
    var approved := s.file in records && (s.file in r.bootstraps || IsLegacy(r, s.file));
    match e
    case UnapprovedScript(page, file) => page == s.page && file == s.file && !approved
    case ScriptModeMismatch(page, file) => page == s.page && file == s.file && approved &&
      records[file].isModule != Some(s.isModule)
    case _ => false
  }

  function ScriptErrors(r: Registry, records: Records, s: Script): (errors: seq<Error>)
    ensures forall e :: e in errors <==> ScriptFault(r, records, s, e)
  {
    if s.file !in records || (s.file !in r.bootstraps && !IsLegacy(r, s.file)) then [UnapprovedScript(s.page, s.file)]
    else if records[s.file].isModule != Some(s.isModule) then [ScriptModeMismatch(s.page, s.file)]
    else []
  }

  predicate BootstrapFault(records: Records, file: string, e: Error) {
    match e
    case MissingBootstrap(f) => f == file && file !in records
    case BootstrapNotModule(f) => f == file && file in records && records[file].isModule != Some(true)
    case _ => false
  }

  function BootstrapErrors(records: Records, file: string): (errors: seq<Error>)
    ensures forall e :: e in errors <==> BootstrapFault(records, file, e)
  {
    if file !in records then [MissingBootstrap(file)]
    else if records[file].isModule != Some(true) then [BootstrapNotModule(file)]
    else []
  }

  predicate LegacyFault(records: Records, file: string, names: seq<string>, e: Error) {
    match e
    case StaleLegacyOwner(f) => f == file && file !in records
    case RetiredGlobal(f, name) => f == file && file in records && name in names && name !in records[file].exports
    case _ => false
  }

  function RetiredNames(file: string, names: seq<string>, exports: seq<string>): (errors: seq<Error>)
    ensures forall e :: e in errors <==> e.RetiredGlobal? && e.file == file && e.name in names && e.name !in exports
  {
    if names == [] then []
    else (if names[0] in exports then [] else [RetiredGlobal(file, names[0])]) + RetiredNames(file, names[1..], exports)
  }

  function LegacyErrors(records: Records, file: string, names: seq<string>): (errors: seq<Error>)
    ensures forall e :: e in errors <==> LegacyFault(records, file, names, e)
  {
    if file !in records then [StaleLegacyOwner(file)] else RetiredNames(file, names, records[file].exports)
  }

  /** The entrypoint is to exist and to export what the registry says, in whatever order. */
  predicate FeatureFault(records: Records, f: Feature, e: Error) {
    match e
    case MissingEntrypoint(file) => file == f.entrypoint && file !in records
    case PublicExportsChanged(file) =>
      file == f.entrypoint && file in records && multiset(records[file].moduleExports) != multiset(f.exports)
    case _ => false
  }

  function FeatureErrors(records: Records, f: Feature): (errors: seq<Error>)
    ensures forall e :: e in errors <==> FeatureFault(records, f, e)
  {
    if f.entrypoint !in records then [MissingEntrypoint(f.entrypoint)]
    else if multiset(records[f.entrypoint].moduleExports) != multiset(f.exports)
    then [PublicExportsChanged(f.entrypoint)]
    else []
  }

  /** What the registry and the scripts of the pages are to be reported for. */
  ghost predicate RegistryFault(r: Registry, records: Records, scripts: seq<Script>, e: Error) {
    || (exists s :: s in scripts && ScriptFault(r, records, s, e))
    || (exists file :: file in r.bootstraps && BootstrapFault(records, file, e))
    || (exists file :: file in r.legacyGlobals && LegacyFault(records, file, r.legacyGlobals[file], e))
    || (exists f :: f in r.features && FeatureFault(records, f, e))
  }

  method RegistryErrors(r: Registry, records: Records, scripts: seq<Script>) returns (errors: seq<Error>)
    ensures forall e :: e in errors <==> RegistryFault(r, records, scripts, e)
  {
    hide ScriptFault, BootstrapFault, LegacyFault, FeatureFault, ScriptErrors, BootstrapErrors, LegacyErrors;
    hide FeatureErrors;
    errors := [];
    for i := 0 to |scripts|
      invariant forall e :: e in errors <==> exists j :: 0 <= j < i && ScriptFault(r, records, scripts[j], e)
    {
      errors := errors + ScriptErrors(r, records, scripts[i]);
    }
    ghost var before := errors;
    for i := 0 to |r.bootstraps|
      invariant forall e :: e in errors <==>
        e in before || exists j :: 0 <= j < i && BootstrapFault(records, r.bootstraps[j], e)
    {
      errors := errors + BootstrapErrors(records, r.bootstraps[i]);
    }
    before := errors;
    var rest := r.legacyGlobals.Keys;
    while rest != {}
      invariant rest <= r.legacyGlobals.Keys
      invariant forall e :: e in errors <==> (e in before ||
        exists file :: file in r.legacyGlobals && file !in rest && LegacyFault(records, file, r.legacyGlobals[file], e))
      decreases rest
    {
      var file :| file in rest;
      errors := errors + LegacyErrors(records, file, r.legacyGlobals[file]);
      rest := rest - {file};
    }
    before := errors;
    for i := 0 to |r.features|
      invariant forall e :: e in errors <==>
        e in before || exists j :: 0 <= j < i && FeatureFault(records, r.features[j], e)
    {
      errors := errors + FeatureErrors(records, r.features[i]);
    }
  }

  // ---- The gate -----------------------------------------------------------------------------------

  /** What the gate reports beside import cycles, given a valid registry. */
  ghost predicate GateFault(r: Registry, records: Records, scripts: seq<Script>, e: Error) {
    || RegistryFault(r, records, scripts, e)
    || exists file :: file in records && RecordFault(r, records, file, e)
  }

  /** The registry is valid, no check finds a fault, and no import path comes back to its start. */
  ghost predicate GateClean(r: Registry, records: Records, scripts: seq<Script>) {
    ValidRegistry(r) && Acyclic(GraphOf(records)) && forall e :: !GateFault(r, records, scripts, e)
  }

  ghost predicate CyclesReported(g: Graph, errors: seq<Error>) {
    && (forall e :: e in errors && e.ImportCycle? ==> OnCycle(g, e.file))
    && (Acyclic(g) <==> forall e: Error :: e in errors ==> !e.ImportCycle?)
    && exists order :: RendererCycles.IsOrder(g, order) && CaughtReported(g, order, errors)
  }

  /** Reported are exactly the files that some import reaches before they are finished, in this order. */
  ghost predicate CaughtReported(g: Graph, order: seq<string>, errors: seq<Error>) {
    forall file :: ImportCycle(file) in errors <==> RendererCycles.CaughtIn(g, order, file)
  }

  /** Of a valid registry the gate reports every fault and nothing else, and a file on a cycle
      exactly if there is a cycle. It is silent exactly if the registry is valid, every check
      passes, and no import path comes back to its start. */
  method RendererBoundaryErrors(r: Registry, records: Records, scripts: seq<Script>) returns (errors: seq<Error>)
    ensures errors == [] <==> GateClean(r, records, scripts)
    ensures !ValidRegistry(r) ==> |errors| == 1 && errors[0].InvalidRegistry?
    ensures ValidRegistry(r) ==> forall e: Error :: !e.ImportCycle? ==>
      (e in errors <==> GateFault(r, records, scripts, e))
    ensures ValidRegistry(r) ==> CyclesReported(GraphOf(records), errors)
  {
    hide ValidRegistry, Acyclic, ResolvedTargets, RegistryFault, RecordFault, OnCycle;
    hide SchemaShape, LegacyListValid, BootstrapsValid, ValidFeatures, CyclesReported;
    var cause := ValidateRegistry(r);
    if cause.Some? { return [InvalidRegistry(cause.value)]; }
    errors := RegistryErrors(r, records, scripts);
    var graph: Graph := map[];
    var rest := records.Keys;
    while rest != {}
      invariant rest <= records.Keys && graph.Keys == records.Keys - rest
      invariant forall file :: file in graph ==> graph[file] == ResolvedTargets(records, records[file].imports)
      invariant forall e :: e in errors <==> (RegistryFault(r, records, scripts, e) ||
        exists file :: file in records && file !in rest && RecordFault(r, records, file, e))
      decreases rest
    {
      var file :| file in rest;
      var more, targets := RecordErrors(r, records, file);
      errors := errors + more;
      graph := graph[file := targets];
      rest := rest - {file};
    }
    assert graph == GraphOf(records);
    forall a, b | Edge(graph, a, b) ensures b in graph { TargetHasImport(records, records[a].imports, b); }
    var cycles, order := RendererCycles.CycleErrors(graph);
    var reported := seq(|cycles|, i requires 0 <= i < |cycles| => ImportCycle(cycles[i]));
    FaultsAreNoCycles(r, records, scripts, errors);
    FaultlessIsClean(r, records, scripts, errors);
    CyclesAdded(GraphOf(records), order, errors, cycles, reported);
    errors := errors + reported;
  }

  lemma CyclesAdded(g: Graph, order: seq<string>, before: seq<Error>, cycles: seq<string>, reported: seq<Error>)
    requires forall e: Error :: e in before ==> !e.ImportCycle?
    requires RendererCycles.IsOrder(g, order)
    requires forall n :: n in cycles <==> RendererCycles.CaughtIn(g, order, n)
    requires |reported| == |cycles| && forall i :: 0 <= i < |cycles| ==> reported[i] == ImportCycle(cycles[i])
    requires (forall n :: n in cycles ==> OnCycle(g, n)) && (cycles == [] <==> Acyclic(g))
    ensures CyclesReported(g, before + reported)
    ensures forall e: Error :: !e.ImportCycle? ==> (e in before + reported <==> e in before)
    ensures before + reported == [] <==> before == [] && Acyclic(g)
  {
    hide OnCycle, Acyclic;
    var errors := before + reported;
    assert forall e: Error :: e in errors <==> e in before || e in reported;
    forall e: Error | e in errors && e.ImportCycle? ensures OnCycle(g, e.file) {
      var i :| 0 <= i < |cycles| && reported[i] == e;
    }
    if cycles != [] { assert reported[0] in errors; }
    forall n ensures ImportCycle(n) in errors <==> n in cycles {
      if i :| 0 <= i < |cycles| && cycles[i] == n { assert reported[i] in errors; }
    }
    assert CaughtReported(g, order, errors);
  }

  lemma FaultsAreNoCycles(r: Registry, records: Records, scripts: seq<Script>, errors: seq<Error>)
    requires forall e :: e in errors <==> GateFault(r, records, scripts, e)
    ensures forall e: Error :: e in errors ==> !e.ImportCycle?
  {
    forall e: Error | e in errors ensures !e.ImportCycle? { assert GateFault(r, records, scripts, e); }
  }

  lemma FaultlessIsClean(r: Registry, records: Records, scripts: seq<Script>, errors: seq<Error>)
    requires ValidRegistry(r) && forall e :: e in errors <==> GateFault(r, records, scripts, e)
    ensures errors == [] && Acyclic(GraphOf(records)) <==> GateClean(r, records, scripts)
  {
    hide ValidRegistry, GateFault, Acyclic;
    assert errors != [] ==> errors[0] in errors;
  }

  // ---- What a silent gate means for paths of imports ------------------------------------------------

  /** Each feature allows the next. */
  ghost predicate AllowedPath(r: Registry, ids: seq<string>) {
    |ids| > 0 && forall i :: 0 <= i < |ids| - 1 ==> AllowsNext(r, ids[i], ids[i + 1])
  }

  /** The reflexive and transitive closure of the allowed dependencies. */
  ghost predicate MayDependOn(r: Registry, a: string, b: string) {
    exists ids :: AllowedPath(r, ids) && ids[0] == a && ids[|ids| - 1] == b
  }

  ghost predicate AllowsNext(r: Registry, a: string, b: string) {
    exists f :: f in r.features && f.id == a && b in f.allowedDependencies
  }

  lemma MayDependOnMore(r: Registry, a: string, f: Feature, c: string)
    requires MayDependOn(r, a, f.id) && f in r.features && c in f.allowedDependencies
    ensures MayDependOn(r, a, c)
  {
    var ids :| AllowedPath(r, ids) && ids[0] == a && ids[|ids| - 1] == f.id;
    var longer := ids + [c];
    assert AllowsNext(r, f.id, c);
    hide AllowsNext;
    forall i | 0 <= i < |longer| - 1 ensures AllowsNext(r, longer[i], longer[i + 1]) {
      if i < |ids| - 1 { assert AllowsNext(r, ids[i], ids[i + 1]) && ids[i + 1] == longer[i + 1]; }
    }
    assert AllowedPath(r, longer);
  }

  lemma ImportIsFaultless(r: Registry, records: Records, scripts: seq<Script>, file: string, i: Import, e: Error)
    requires GateClean(r, records, scripts) && file in records && i in records[file].imports
    ensures !ImportFault(r, records, file, i, e)
  {
    hide ValidRegistry, RegistryFault, Acyclic, ImportFault, OwnershipFault;
    assert !GateFault(r, records, scripts, e);
  }

  /** Every import of a clean renderer enters its target properly, and may depend on it. */
  lemma ImportIsProper(r: Registry, records: Records, scripts: seq<Script>, a: string, b: string)
    requires GateClean(r, records, scripts) && Edge(GraphOf(records), a, b)
    ensures a in records && b in records && EntersProperly(r, a, b) && DependsProperly(r, a, b)
  {
    hide GateClean, EntersProperly, DependsProperly, TargetOf, Resolve, Owner, ResolvedTargets, IsLocal;
    TargetHasImport(records, records[a].imports, b);
    var i :| 0 <= i < |records[a].imports| && TargetOf(records, records[a].imports[i]) == Some(b);
    ImportIsFaultless(r, records, scripts, a, records[a].imports[i], PrivateImport(a, b));
    ImportIsFaultless(r, records, scripts, a, records[a].imports[i], DisallowedDependency(a, b));
  }

  /** Every file reached by imports from a feature belongs to a feature it may depend on. */
  lemma {:induction false} FeatureReachesAllowed(r: Registry, records: Records, scripts: seq<Script>, w: seq<string>,
                                                 i: nat)
    requires GateClean(r, records, scripts) && Walk(GraphOf(records), w) && Owner(r, w[0]).Some? && i < |w|
    ensures Owner(r, w[i]).Some? && MayDependOn(r, Owner(r, w[0]).value.id, Owner(r, w[i]).value.id)
    decreases i
  {
    hide GateClean, Owner;
    var start := Owner(r, w[0]).value.id;
    if i == 0 {
      assert AllowedPath(r, [start]);
    } else {
      FeatureReachesAllowed(r, records, scripts, w, i - 1);
      assert Edge(GraphOf(records), w[i - 1], w[i - 1 + 1]);
      ImportIsProper(r, records, scripts, w[i - 1], w[i]);
      var f, g := Owner(r, w[i - 1]).value, Owner(r, w[i]).value;
      if f.id != g.id {
        OwnerIsFeature(r, w[i - 1]);
        MayDependOnMore(r, start, f, g.id);
      }
    }
  }

  lemma OwnerIsFeature(r: Registry, file: string)
    requires Owner(r, file).Some?
    ensures Owner(r, file).value in r.features
  {
  }

  /** Every path that ends in a feature and starts outside it enters it at its entrypoint. */
  lemma {:induction false} FeatureIsEnteredAtEntrypoint(r: Registry, records: Records, scripts: seq<Script>,
                                                        w: seq<string>, f: Feature)
    returns (k: nat)
    requires GateClean(r, records, scripts) && Walk(GraphOf(records), w)
    requires Owner(r, w[|w| - 1]) == Some(f) && (Owner(r, w[0]).None? || Owner(r, w[0]).value.id != f.id)
    ensures 0 < k < |w| && w[k] == f.entrypoint && forall i :: k <= i < |w| ==>
      Owner(r, w[i]).Some? && Owner(r, w[i]).value.id == f.id
    decreases |w|
  {
    hide GateClean, Owner;
    var last := |w| - 1;
    assert Edge(GraphOf(records), w[last - 1], w[last - 1 + 1]);
    ImportIsProper(r, records, scripts, w[last - 1], w[last]);
    var before := Owner(r, w[last - 1]);
    if before.None? || before.value.id != f.id {
      k := last;
    } else {
      SameIdSameFeature(r, records, scripts, w[last - 1], w[last]);
      var rest := w[..last];
      forall i | 0 <= i < |rest| - 1 ensures Edge(GraphOf(records), rest[i], rest[i + 1]) {
        assert Edge(GraphOf(records), w[i], w[i + 1]);
      }
      k := FeatureIsEnteredAtEntrypoint(r, records, scripts, rest, f);
      forall i | k <= i < |w| ensures Owner(r, w[i]).Some? && Owner(r, w[i]).value.id == f.id {
        if i < last { assert w[i] == rest[i]; }
      }
    }
  }

  lemma SameIdSameFeature(r: Registry, records: Records, scripts: seq<Script>, a: string, b: string)
    requires GateClean(r, records, scripts) && Owner(r, a).Some? && Owner(r, b).Some?
    requires Owner(r, a).value.id == Owner(r, b).value.id
    ensures Owner(r, a) == Owner(r, b)
  {
    var f, g := Owner(r, a).value, Owner(r, b).value;
    var i :| 0 <= i < |r.features| && r.features[i] == f;
    var j :| 0 <= j < |r.features| && r.features[j] == g;
    assert i == j;
  }
}
