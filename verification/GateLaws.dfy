/** The rules of the renderer boundary, written out over the registry and the records alone. */
module GateLaws {
  import opened Wrappers
  import opened ImportGraph
  import opened Identifiers
  import opened Paths
  import opened RendererGate

  // ---- Owners and imports -------------------------------------------------------------------------

  /** The file stands in the directory of the feature called `id`. */
  ghost predicate InFeature(id: string, file: string) {
    exists rest: string :: file == "renderer/features/" + id + "/" + rest
  }

  ghost predicate Owned(r: Registry, file: string) {
    exists f: Feature :: f in r.features && InFeature(f.id, file)
  }

  lemma BelowIsInFeature(f: Feature, file: string)
    requires ValidFeature(f)
    ensures Below(f.root, file) <==> InFeature(f.id, file)
  {
    var dir := "renderer/features/" + f.id + "/";
    assert f.root + "/" == dir;
    if dir <= file { assert file == dir + file[|dir|..]; }
  }

  /** The owner of a file is the one feature whose directory it stands in. */
  lemma OwnerIs(r: Registry, file: string, f: Feature)
    requires ValidRegistry(r)
    ensures Owner(r, file) == Some(f) <==> f in r.features && InFeature(f.id, file)
  {
    hide InFeature, Below, Owner, ValidBootstrap, ValidLegacy, SchemaShape, ValidFeature;
    OwnerIsUnique(r, file, f);
    if f in r.features { BelowIsInFeature(f, file); }
  }

  lemma OwnedIs(r: Registry, file: string)
    requires ValidRegistry(r)
    ensures Owner(r, file).Some? <==> Owned(r, file)
  {
    hide InFeature, Owner, ValidRegistry;
    forall f: Feature ensures Owner(r, file) == Some(f) <==> f in r.features && InFeature(f.id, file) {
      OwnerIs(r, file, f);
    }
    if Owner(r, file).Some? { assert InFeature(Owner(r, file).value.id, file); }
  }

  lemma SameId(r: Registry, f: Feature, g: Feature)
    requires ValidRegistry(r) && f in r.features && g in r.features
    ensures f.id == g.id <==> f == g
  {
    hide ValidBootstrap, ValidLegacy, SchemaShape, ValidFeature;
    var i :| 0 <= i < |r.features| && r.features[i] == f;
    var j :| 0 <= j < |r.features| && r.features[j] == g;
    assert i < j || i == j || j < i;
  }

  /** The import as written stays in the renderer. */
  predicate StaysLocal(specifier: string) {
    && |specifier| > 0 && specifier[0] == '.'
    && forall k :: 0 <= k < |specifier| ==> specifier[k] != '\\' && specifier[k] != '?' && specifier[k] != '#'
  }

  lemma LocalIs(specifier: string)
    ensures IsLocal(specifier) <==> StaysLocal(specifier)
  {
  }

  /** The import is local and names the file: as written, with the script suffix, or as an index. */
  predicate Names(records: Records, i: Import, target: string) {
    && StaysLocal(i.specifier) && target in records
    && if i.relative in records then target == i.relative
       else if i.relative + ".js" in records then target == i.relative + ".js"
       else target == i.relative + "/index.js"
  }

  predicate NamesNothing(records: Records, i: Import) {
    && StaysLocal(i.specifier)
    && i.relative !in records && i.relative + ".js" !in records && i.relative + "/index.js" !in records
  }

  lemma TargetIs(records: Records, i: Import, target: string)
    ensures TargetOf(records, i) == Some(target) <==> Names(records, i, target)
    ensures IsLocal(i.specifier) && Resolve(records, i.relative).None? <==> NamesNothing(records, i)
  {
    LocalIs(i.specifier);
  }

  ghost predicate Imports(records: Records, file: string, target: string) {
    file in records && exists k :: 0 <= k < |records[file].imports| && Names(records, records[file].imports[k], target)
  }

  /** The import enters a feature from outside at another file than its entrypoint. */
  ghost predicate Intrudes(r: Registry, file: string, target: string) {
    exists f: Feature ::
      f in r.features && InFeature(f.id, target) && !InFeature(f.id, file) &&
      target != "renderer/features/" + f.id + "/index.mjs"
  }

  /** The import leaves a feature for a file of none, or of one that it does not list. */
  ghost predicate Strays(r: Registry, file: string, target: string) {
    exists f: Feature ::
      f in r.features && InFeature(f.id, file) && !InFeature(f.id, target) &&
      forall g: Feature :: g in r.features && InFeature(g.id, target) ==> g.id !in f.allowedDependencies
  }

  lemma IntrusionIs(r: Registry, file: string, target: string)
    requires ValidRegistry(r)
    ensures !EntersProperly(r, file, target) <==> Intrudes(r, file, target)
  {
    hide InFeature, Owner, ValidRegistry;
    forall f: Feature ensures Owner(r, file) == Some(f) <==> f in r.features && InFeature(f.id, file) {
      OwnerIs(r, file, f);
    }
    forall f: Feature ensures Owner(r, target) == Some(f) <==> f in r.features && InFeature(f.id, target) {
      OwnerIs(r, target, f);
    }
    var current, dependency := Owner(r, file), Owner(r, target);
    if dependency.Some? {
      EntrypointIs(r, dependency.value);
      if current.Some? { SameId(r, current.value, dependency.value); }
    }
  }

  lemma EntrypointIs(r: Registry, f: Feature)
    requires ValidRegistry(r) && f in r.features
    ensures f.entrypoint == "renderer/features/" + f.id + "/index.mjs"
  {
    hide ValidBootstrap, ValidLegacy, SchemaShape;
    assert ValidFeature(f);
  }

  lemma StrayingIs(r: Registry, file: string, target: string)
    requires ValidRegistry(r)
    ensures !DependsProperly(r, file, target) <==> Strays(r, file, target)
  {
    hide InFeature, Owner, ValidRegistry;
    forall f: Feature ensures Owner(r, file) == Some(f) <==> f in r.features && InFeature(f.id, file) {
      OwnerIs(r, file, f);
    }
    forall f: Feature ensures Owner(r, target) == Some(f) <==> f in r.features && InFeature(f.id, target) {
      OwnerIs(r, target, f);
    }
    var current, dependency := Owner(r, file), Owner(r, target);
    if current.Some? && dependency.Some? { SameId(r, current.value, dependency.value); }
  }

  // ---- What is reported ---------------------------------------------------------------------------

  /** What is to be reported for the scripts of the pages and for the entries of the registry. */
  ghost predicate RegistryDeserves(r: Registry, records: Records, scripts: seq<Script>, e: Error) {
    match e
    case UnapprovedScript(page, file) =>
      (exists m: bool :: Script(page, file, m) in scripts) &&
      (file !in records || (file !in r.bootstraps && file !in r.legacyGlobals))
    case ScriptModeMismatch(page, file) =>
      (file in r.bootstraps || file in r.legacyGlobals) && file in records &&
      exists m: bool :: Script(page, file, m) in scripts && records[file].isModule != Some(m)
    case MissingBootstrap(file) => file in r.bootstraps && file !in records
    case BootstrapNotModule(file) => file in r.bootstraps && file in records && records[file].isModule != Some(true)
    case StaleLegacyOwner(file) => file in r.legacyGlobals && file !in records
    case RetiredGlobal(file, name) =>
      file in r.legacyGlobals && name in r.legacyGlobals[file] && file in records && name !in records[file].exports
    case MissingEntrypoint(file) =>
      file !in records &&
      exists f: Feature :: f in r.features && file == "renderer/features/" + f.id + "/index.mjs"
    case PublicExportsChanged(file) =>
      file in records &&
      exists f: Feature ::
        f in r.features && file == "renderer/features/" + f.id + "/index.mjs" &&
        multiset(records[file].moduleExports) != multiset(f.exports)
    case _ => false
  }

  /** What is to be reported for one file. */
  ghost predicate FileDeserves(r: Registry, records: Records, e: Error) {
    match e
    case UnapprovedHtmlModule(file) =>
      file in records && records[file].htmlModule && file !in r.bootstraps && file !in r.legacyGlobals
    case UnownedSource(file) =>
      file in records && !Owned(r, file) && file !in r.legacyGlobals && file !in r.bootstraps
    case UnregisteredClassic(file) =>
      file in records && records[file].isModule == Some(false) && file !in r.legacyGlobals
    case UnownedFeatureSource(file) =>
      file in records && "renderer/features/" <= file && !Owned(r, file) && file !in r.bootstraps
    case AnalysisError(file, message) => file in records && message in records[file].errors
    case UnapprovedGlobal(file, name) =>
      file in records && name in records[file].exports &&
      !(file in r.legacyGlobals && name in r.legacyGlobals[file])
    case FeatureUsesGlobals(file) =>
      file in records && Owned(r, file) && (records[file].globalReads > 0 || |records[file].exports| > 0)
    case NonLocalImport(file) =>
      file in records &&
      exists k :: 0 <= k < |records[file].imports| && !StaysLocal(records[file].imports[k].specifier)
    case UnresolvedImport(file, specifier) =>
      file in records &&
      exists k ::
        0 <= k < |records[file].imports| && records[file].imports[k].specifier == specifier &&
        NamesNothing(records, records[file].imports[k])
    case PrivateImport(file, target) => Imports(records, file, target) && Intrudes(r, file, target)
    case DisallowedDependency(file, target) => Imports(records, file, target) && Strays(r, file, target)
    case _ => false
  }

  lemma ScriptFaultsAre(r: Registry, records: Records, scripts: seq<Script>, e: Error)
    ensures (exists s :: s in scripts && ScriptFault(r, records, s, e)) <==>
      (e.UnapprovedScript? || e.ScriptModeMismatch?) && RegistryDeserves(r, records, scripts, e)
  {
    if s :| s in scripts && ScriptFault(r, records, s, e) { assert s == Script(e.page, e.file, s.isModule); }
    if (e.UnapprovedScript? || e.ScriptModeMismatch?) && RegistryDeserves(r, records, scripts, e) {
      var m: bool :| Script(e.page, e.file, m) in scripts &&
                     (e.ScriptModeMismatch? ==> records[e.file].isModule != Some(m));
      assert ScriptFault(r, records, Script(e.page, e.file, m), e);
    }
  }

  lemma FeatureFaultsAre(r: Registry, records: Records, scripts: seq<Script>, e: Error)
    requires ValidRegistry(r)
    ensures (exists f :: f in r.features && FeatureFault(records, f, e)) <==>
      (e.MissingEntrypoint? || e.PublicExportsChanged?) && RegistryDeserves(r, records, scripts, e)
  {
    hide ValidRegistry;
    forall f: Feature | f in r.features ensures f.entrypoint == "renderer/features/" + f.id + "/index.mjs" {
      EntrypointIs(r, f);
    }
  }

  lemma RegistryFaultsAre(r: Registry, records: Records, scripts: seq<Script>, e: Error)
    requires ValidRegistry(r)
    ensures RegistryFault(r, records, scripts, e) <==> RegistryDeserves(r, records, scripts, e)
  {
    hide ValidRegistry, ScriptFault, FeatureFault;
    ScriptFaultsAre(r, records, scripts, e);
    FeatureFaultsAre(r, records, scripts, e);
  }

  lemma ImportFaultsAre(r: Registry, records: Records, file: string, e: Error)
    requires ValidRegistry(r) && file in records
    ensures (exists i :: i in records[file].imports && ImportFault(r, records, file, i, e)) <==>
      (e.NonLocalImport? || e.UnresolvedImport? || e.PrivateImport? || e.DisallowedDependency?) && e.file == file &&
      FileDeserves(r, records, e)
  {
    hide ValidRegistry, Owned, Owner, Intrudes, Strays, EntersProperly, DependsProperly, StaysLocal, IsLocal;
    hide Names, NamesNothing, TargetOf, Resolve;
    var imports := records[file].imports;
    forall k | 0 <= k < |imports| ensures IsLocal(imports[k].specifier) <==> StaysLocal(imports[k].specifier) {
      LocalIs(imports[k].specifier);
    }
    match e
    case NonLocalImport(_) =>
      if k :| e.file == file && 0 <= k < |imports| && !StaysLocal(imports[k].specifier) {
        assert imports[k] in imports && ImportFault(r, records, file, imports[k], e);
      }
    case UnresolvedImport(_, specifier) =>
      forall k | 0 <= k < |imports|
        ensures IsLocal(imports[k].specifier) && Resolve(records, imports[k].relative).None? <==>
                NamesNothing(records, imports[k])
      {
        TargetIs(records, imports[k], "");
      }
      if e.file == file && FileDeserves(r, records, e) {
        var k :| 0 <= k < |imports| && imports[k].specifier == specifier && NamesNothing(records, imports[k]);
        assert imports[k] in imports && ImportFault(r, records, file, imports[k], e);
      }
    case PrivateImport(_, target) =>
      TargetsAre(records, imports, target);
      IntrusionIs(r, file, target);
      if k :| e.file == file && 0 <= k < |imports| && Names(records, imports[k], target) {
        assert imports[k] in imports && TargetOf(records, imports[k]) == Some(target);
      }
    case DisallowedDependency(_, target) =>
      TargetsAre(records, imports, target);
      StrayingIs(r, file, target);
      if k :| e.file == file && 0 <= k < |imports| && Names(records, imports[k], target) {
        assert imports[k] in imports && TargetOf(records, imports[k]) == Some(target);
      }
    case _ =>
  }

  lemma TargetsAre(records: Records, imports: seq<Import>, target: string)
    ensures forall k :: 0 <= k < |imports| ==>
      (TargetOf(records, imports[k]) == Some(target) <==> Names(records, imports[k], target))
  {
    hide Names, TargetOf;
    forall k | 0 <= k < |imports|
      ensures TargetOf(records, imports[k]) == Some(target) <==> Names(records, imports[k], target)
    {
      TargetIs(records, imports[k], target);
    }
  }

  lemma RecordFaultsAre(r: Registry, records: Records, file: string, e: Error)
    requires ValidRegistry(r) && file in records
    ensures RecordFault(r, records, file, e) <==> FileDeserves(r, records, e) && e.file == file
  {
    hide ValidRegistry, Owned, Owner, Imports, Intrudes, Strays, StaysLocal, NamesNothing, ImportFault;
    OwnedIs(r, file);
    ImportFaultsAre(r, records, file, e);
  }

  lemma FileFaultsAre(r: Registry, records: Records, e: Error)
    requires ValidRegistry(r)
    ensures (exists file :: file in records && RecordFault(r, records, file, e)) <==> FileDeserves(r, records, e)
  {
    hide ValidRegistry, RecordFault, Owned, Intrudes, Strays, StaysLocal, NamesNothing;
    forall file | file in records
      ensures RecordFault(r, records, file, e) <==> FileDeserves(r, records, e) && e.file == file
    {
      RecordFaultsAre(r, records, file, e);
    }
  }

  /** Of a valid registry the gate reports exactly this, beside files on import cycles. */
  lemma FaultsAre(r: Registry, records: Records, scripts: seq<Script>, e: Error)
    requires ValidRegistry(r)
    ensures GateFault(r, records, scripts, e) <==>
      RegistryDeserves(r, records, scripts, e) || FileDeserves(r, records, e)
  {
    hide ValidRegistry, RegistryFault, RecordFault, RegistryDeserves, FileDeserves;
    RegistryFaultsAre(r, records, scripts, e);
    FileFaultsAre(r, records, e);
  }

  /** A global is reported exactly if its file exports it and the list of that very file does not hold it. */
  lemma UnlistedGlobalsAreReported(r: Registry, records: Records, scripts: seq<Script>, file: string, name: string)
    requires ValidRegistry(r)
    ensures GateFault(r, records, scripts, UnapprovedGlobal(file, name)) <==>
      file in records && name in records[file].exports && (file in r.legacyGlobals ==> name !in r.legacyGlobals[file])
  {
    hide ValidRegistry, GateFault;
    FaultsAre(r, records, scripts, UnapprovedGlobal(file, name));
  }

  /** Past a silent gate every global of a file stands in the list of that file, and the lists hold nothing else. */
  lemma GlobalsAreListed(r: Registry, records: Records, scripts: seq<Script>, file: string, name: string)
    requires GateClean(r, records, scripts)
    ensures (file in records && name in records[file].exports) <==>
      (file in r.legacyGlobals && name in r.legacyGlobals[file])
  {
    hide ValidRegistry, GateFault, Acyclic;
    UnlistedGlobalsAreReported(r, records, scripts, file, name);
    FaultsAre(r, records, scripts, RetiredGlobal(file, name));
    FaultsAre(r, records, scripts, StaleLegacyOwner(file));
  }

  // ---- What a valid registry is -----------------------------------------------------------------------

  predicate WordChar(c: char) {
    'a' <= c <= 'z' || 'A' <= c <= 'Z' || '0' <= c <= '9' || c == '_'
  }

  /** An identifier of letters, digits, `_` and `$` that does not start with a digit. */
  predicate NameText(name: string) {
    && |name| > 0 && !('0' <= name[0] <= '9')
    && forall k :: 0 <= k < |name| ==> WordChar(name[k]) || name[k] == '$'
  }

  ghost predicate PathPart(part: string) {
    && |part| > 0 && part != "." && part != ".."
    && forall k :: 0 <= k < |part| ==> WordChar(part[k]) || part[k] == '.' || part[k] == '-'
  }

  /** Parts with slashes between them, with or without one at the end. */
  ghost predicate PathText(path: string) {
    path == "." ||
    exists parts: seq<string> ::
      |parts| > 0 && (forall k :: 0 <= k < |parts| ==> PathPart(parts[k])) &&
      (path == Joined(parts) || path == Joined(parts) + "/")
  }

  lemma NameIs(name: string)
    ensures IsName(name) <==> NameText(name)
  {
  }

  lemma {:induction false} PartsOfJoined(parts: seq<string>, path: string)
    requires |parts| > 0 && forall k :: 0 <= k < |parts| ==> '/' !in parts[k]
    requires path == Joined(parts) || path == Joined(parts) + "/"
    ensures Segments(path) == if path == Joined(parts) then parts else parts + [""]
  {
    SegmentsJoined(parts);
    if path != Joined(parts) {
      SegmentsBelow(Joined(parts), "");
      assert path == Joined(parts) + "/" + "";
    }
  }

  lemma {:induction false} JoinedWithSlash(parts: seq<string>)
    requires |parts| > 0
    ensures Joined(parts + [""]) == Joined(parts) + "/"
  {
    var more := parts + [""];
    if |parts| > 1 {
      JoinedWithSlash(parts[1..]);
      assert more[1..] == parts[1..] + [""];
    } else {
      assert more[1..] == [""];
    }
  }

  /** The path check accepts exactly relative paths whose parts are plain. */
  lemma PathIs(path: string)
    ensures SafePath(path) <==> PathText(path)
  {
    if path == "." {
      NoSlash(path);
    } else if SafePath(path) {
      SafePathHasParts(path);
    } else if PathText(path) {
      PartsAreSafe(path);
    }
  }

  lemma SafePathHasParts(path: string)
    requires SafePath(path) && path != "."
    ensures PathText(path)
  {
    JoinedSegments(path);
    var all := Segments(path);
    CharsOfJoined(all);
    var last := all[|all| - 1];
    var parts := if last == "" then all[..|all| - 1] else all;
    if last == "" {
      assert |all| > 1;
      assert all == parts + [""];
      JoinedWithSlash(parts);
    }
    forall k | 0 <= k < |parts| ensures PathPart(parts[k]) {
      assert parts[k] == all[k] && all[k] in all;
      forall j | 0 <= j < |parts[k]| ensures WordChar(parts[k][j]) || parts[k][j] == '.' || parts[k][j] == '-' {
        assert parts[k][j] in path;
      }
    }
  }

  lemma PartsAreSafe(path: string)
    requires PathText(path) && path != "."
    ensures SafePath(path)
  {
    var parts: seq<string> :|
      |parts| > 0 && (forall k :: 0 <= k < |parts| ==> PathPart(parts[k])) &&
      (path == Joined(parts) || path == Joined(parts) + "/");
    forall k | 0 <= k < |parts| ensures '/' !in parts[k] { assert PathPart(parts[k]); }
    PartsOfJoined(parts, path);
    CharsOfJoined(parts);
    var all := Segments(path);
    forall i | 0 <= i < |path| ensures IsWord(path[i]) || path[i] in {'.', '/', '-'} {
      var c := path[i];
      if c != '/' {
        assert c in Joined(parts);
        var k :| 0 <= k < |parts| && c in parts[k];
        assert PathPart(parts[k]);
      }
    }
    assert PathPart(parts[0]);
    assert path[0] == parts[0][0];
    forall i | 0 <= i < |all|
      ensures all[i] != ".." && all[i] != "." && (all[i] != "" || (i == |all| - 1 && i > 0))
    {
      if i < |parts| { assert all[i] == parts[i] && PathPart(parts[i]); }
    }
  }

  // ---- A valid registry -------------------------------------------------------------------------------

  /** The file is called something before one of the two script suffixes. */
  ghost predicate ScriptText(file: string, start: string) {
    exists stem: string :: file == start + stem + ".js" || file == start + stem + ".mjs"
  }

  ghost predicate RendererScript(file: string) {
    exists stem: string :: |stem| > 0 && (file == "renderer/" + stem + ".js" || file == "renderer/" + stem + ".mjs")
  }

  predicate ListOfTexts(items: seq<string>) {
    && |items| <= 256
    && (forall k :: 0 <= k < |items| ==> 0 < |items[k]| < 161)
    && (forall j, k :: 0 <= j < |items| && 0 <= k < |items| && items[j] == items[k] ==> j == k)
  }

  lemma ListIs(items: seq<string>)
    ensures StringList(items) <==> ListOfTexts(items)
  {
    if ListOfTexts(items) {
      forall x | x in items ensures 1 <= |x| <= 160 { var k :| 0 <= k < |items| && items[k] == x; }
    }
  }

  lemma ScriptIs(file: string)
    ensures IsScript(file) <==> ScriptText(file, "")
  {
    if EndsWith(file, ".js") { assert file == "" + file[..|file| - 3] + ".js"; }
    if EndsWith(file, ".mjs") { assert file == "" + file[..|file| - 4] + ".mjs"; }
  }

  /** The file is `start` and `suffix` with something between them. */
  ghost predicate Encloses(file: string, start: string, suffix: string) {
    exists stem: string :: |stem| > 0 && file == start + stem + suffix
  }

  lemma EnclosedIs(file: string, start: string, suffix: string)
    ensures start <= file && EndsWith(file, suffix) && |file| > |start| + |suffix| <==> Encloses(file, start, suffix)
  {
    if start <= file && EndsWith(file, suffix) && |file| > |start| + |suffix| {
      StemOf(file, start, suffix);
    }
    if Encloses(file, start, suffix) {
      var stem: string :| |stem| > 0 && file == start + stem + suffix;
      assert file[|file| - |suffix|..] == suffix;
    }
  }

  lemma StemOf(file: string, start: string, suffix: string)
    requires start <= file && EndsWith(file, suffix) && |file| > |start| + |suffix|
    ensures Encloses(file, start, suffix)
  {
    var stem := file[|start|..|file| - |suffix|];
    var rest := file[|start|..];
    assert file == start + rest;
    assert rest == stem + suffix;
    assert start + (stem + suffix) == start + stem + suffix;
  }

  lemma RendererScriptIs(file: string)
    ensures "renderer/" <= file && IsScript(file) && RendererStem(file) <==> RendererScript(file)
  {
    hide EndsWith;
    EnclosedIs(file, "renderer/", ".js");
    EnclosedIs(file, "renderer/", ".mjs");
    assert RendererScript(file) <==> Encloses(file, "renderer/", ".js") || Encloses(file, "renderer/", ".mjs");
    assert |"renderer/"| == 9 && |".js"| == 3 && |".mjs"| == 4;
  }

  ghost predicate LegacyText(file: string, names: seq<string>) {
    && PathText(file) && ScriptText(file, "") && ListOfTexts(names) && |names| > 0
    && forall k :: 0 <= k < |names| ==>
      NameText(names[k]) || exists x: string :: NameText(x) && names[k] == "@binding:" + x
  }

  lemma LegacyIs(file: string, names: seq<string>)
    ensures ValidLegacy(file, names) <==> LegacyText(file, names)
  {
    hide SafePath, PathText, IsScript, ScriptText, IsName, NameText, StringList, ListOfTexts;
    PathIs(file);
    ScriptIs(file);
    ListIs(names);
    forall k | 0 <= k < |names|
      ensures IsGlobalName(names[k]) <==>
              NameText(names[k]) || exists x: string :: NameText(x) && names[k] == "@binding:" + x
    {
      GlobalNameIs(names[k]);
    }
    if LegacyText(file, names) {
      forall x | x in names ensures IsGlobalName(x) { var k :| 0 <= k < |names| && names[k] == x; }
    }
  }

  lemma GlobalNameIs(name: string)
    ensures IsGlobalName(name) <==> NameText(name) || exists x: string :: NameText(x) && name == "@binding:" + x
  {
    hide IsName, NameText;
    NameIs(name);
    if "@binding:" <= name {
      NameIs(name[9..]);
      assert name == "@binding:" + name[9..];
    }
    if x: string :| NameText(x) && name == "@binding:" + x {
      assert name[9..] == x;
    }
  }

  predicate FeatureText(f: Feature) {
    && IdText(f.id)
    && f.root == "renderer/features/" + f.id
    && f.entrypoint == "renderer/features/" + f.id + "/index.mjs"
    && ListOfTexts(f.exports) && |f.exports| > 0 && (forall k :: 0 <= k < |f.exports| ==> NameText(f.exports[k]))
    && ListOfTexts(f.allowedDependencies)
  }

  lemma FeatureIs(f: Feature)
    ensures ValidFeature(f) <==> FeatureText(f)
  {
    hide IsName, NameText, StringList, ListOfTexts;
    ListIs(f.exports);
    ListIs(f.allowedDependencies);
    forall k | 0 <= k < |f.exports| ensures IsName(f.exports[k]) <==> NameText(f.exports[k]) { NameIs(f.exports[k]); }
    if FeatureText(f) {
      forall x | x in f.exports ensures IsName(x) { var k :| 0 <= k < |f.exports| && f.exports[k] == x; }
    }
    if f.root == "renderer/features/" + f.id {
      assert f.root + "/index.mjs" == "renderer/features/" + f.id + "/index.mjs";
    }
  }

  /** A registry is accepted exactly if it is within the bounds, its legacy files and bootstraps are plain paths
      to scripts that no feature holds, and its features are called and placed as they should be. */
  ghost predicate RegistryText(r: Registry) {
    && ListOfTexts(r.bootstraps) && |r.bootstraps| > 0 && |r.legacyGlobals| < 129 && |r.features| < 65
    && (forall file :: file in r.legacyGlobals ==> LegacyText(file, r.legacyGlobals[file]))
    && (forall f :: f in r.features ==> FeatureText(f))
    && (forall i, j :: 0 <= i < |r.features| && 0 <= j < |r.features| && r.features[i].id == r.features[j].id ==>
        i == j)
    && (forall file :: file in r.bootstraps ==>
          PathText(file) && RendererScript(file) && file !in r.legacyGlobals && !Owned(r, file))
    && (forall f, id :: f in r.features && id in f.allowedDependencies ==>
          id != f.id && exists g :: g in r.features && g.id == id)
  }

  /** What each of the first four checks of the registry accepts. */
  lemma RegistryPartsAre(r: Registry)
    ensures SchemaShape(r) <==>
      ListOfTexts(r.bootstraps) && |r.bootstraps| > 0 && |r.legacyGlobals| < 129 && |r.features| < 65
    ensures LegacyListValid(r) <==> forall file :: file in r.legacyGlobals ==> LegacyText(file, r.legacyGlobals[file])
    ensures ValidFeatures(r.features) <==>
      && (forall f :: f in r.features ==> FeatureText(f))
      && (forall i, j ::
            0 <= i < |r.features| && 0 <= j < |r.features| && r.features[i].id == r.features[j].id ==> i == j)
    ensures ValidFeatures(r.features) ==> (BootstrapsValid(r) <==> forall file :: file in r.bootstraps ==>
      PathText(file) && RendererScript(file) && file !in r.legacyGlobals && !Owned(r, file))
  {
    hide SafePath, PathText, IsScript, RendererStem, RendererScript, ValidLegacy, LegacyText, StringList, ListOfTexts;
    hide ValidFeature, FeatureText, Below, InFeature;
    ListIs(r.bootstraps);
    forall file | file in r.legacyGlobals
      ensures ValidLegacy(file, r.legacyGlobals[file]) <==> LegacyText(file, r.legacyGlobals[file])
    {
      LegacyIs(file, r.legacyGlobals[file]);
    }
    forall f | f in r.features ensures ValidFeature(f) <==> FeatureText(f) { FeatureIs(f); }
    if forall f :: f in r.features ==> ValidFeature(f) {
      forall file ensures ValidBootstrap(r, file) <==>
          PathText(file) && RendererScript(file) && file !in r.legacyGlobals && !Owned(r, file)
      {
        PathIs(file);
        RendererScriptIs(file);
        forall f | f in r.features ensures Below(f.root, file) <==> InFeature(f.id, file) { BelowIsInFeature(f, file); }
      }
    }
  }

  lemma RegistryIs(r: Registry)
    ensures ValidRegistry(r) <==> RegistryText(r)
  {
    hide SchemaShape, ValidBootstrap, ValidLegacy, LegacyText, ListOfTexts, ValidFeatures, FeatureText, PathText;
    hide RendererScript, Owned;
    RegistryPartsAre(r);
  }

  // ---- The graph of imports -----------------------------------------------------------------------------

  lemma {:induction false} ResolvedAre(records: Records, imports: seq<Import>, target: string)
    ensures target in ResolvedTargets(records, imports) <==>
      exists k :: 0 <= k < |imports| && Names(records, imports[k], target)
    decreases |imports|
  {
    hide Names, TargetOf;
    if imports != [] {
      var last := |imports| - 1;
      ResolvedAre(records, imports[..last], target);
      TargetIs(records, imports[last], target);
    }
  }

  /** The graph that is searched for cycles, and that paths run through, has exactly the imports that name a file. */
  lemma EdgesAre(records: Records, file: string, target: string)
    ensures Edge(GraphOf(records), file, target) <==> Imports(records, file, target)
  {
    hide Names, ResolvedTargets;
    if file in records { ResolvedAre(records, records[file].imports, target); }
  }
}
