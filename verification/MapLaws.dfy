/** The rules of the module map, written out over its patterns and the files. */
module MapLaws {
  import opened Wrappers
  import opened Identifiers
  import opened Paths
  import opened ModuleMap

  // ---- Patterns -----------------------------------------------------------------------------------

  /** A wild pattern covers what stands below its directory. */
  lemma WildMatches(base: string, file: string)
    ensures Matches(base + "/**", file) <==> exists rest: string :: file == base + "/" + rest
  {
    var pattern := base + "/**";
    var dir := base + "/";
    assert pattern[|pattern| - 3..] == "/**" && pattern[..|pattern| - 2] == dir;
    if dir <= file { assert file == base + "/" + file[|dir|..]; }
    if rest: string :| file == base + "/" + rest { assert dir <= file; }
  }

  /** Any other pattern covers the file it names. */
  lemma PlainMatches(pattern: string, file: string)
    requires |pattern| < 3 || pattern[|pattern| - 3..] != "/**"
    ensures Matches(pattern, file) <==> file == pattern
  {
  }

  ghost predicate Wild(pattern: string, base: string) {
    pattern == base + "/**"
  }

  ghost predicate Under(base: string, file: string) {
    exists rest: string :: file == base + "/" + rest
  }

  /** The pattern covers the file: what stands under the directory of a wild one, and nothing but itself else. */
  ghost predicate Covers(pattern: string, file: string) {
    || (exists base: string :: Wild(pattern, base) && Under(base, file))
    || (file == pattern && forall base: string :: !Wild(pattern, base))
  }

  lemma WildIs(pattern: string)
    ensures IsWild(pattern) <==> exists base: string :: Wild(pattern, base)
    ensures IsWild(pattern) ==> Wild(pattern, pattern[..|pattern| - 3])
    ensures forall base: string :: Wild(pattern, base) ==> base == pattern[..|pattern| - 3]
  {
    if IsWild(pattern) { assert Wild(pattern, pattern[..|pattern| - 3]); }
    forall base: string | Wild(pattern, base) ensures IsWild(pattern) && base == pattern[..|pattern| - 3] {
      assert pattern[|pattern| - 3..] == "/**";
    }
  }

  lemma UnderMeans(base: string, file: string)
    ensures Under(base, file) <==> exists rest: string :: file == base + "/" + rest
  {
  }

  lemma CoversIs(pattern: string, file: string)
    ensures Matches(pattern, file) <==> Covers(pattern, file)
  {
    hide Under;
    WildIs(pattern);
    if IsWild(pattern) {
      var base := pattern[..|pattern| - 3];
      WildMatches(base, file);
      assert Under(base, file) <==> exists rest: string :: file == base + "/" + rest by { UnderMeans(base, file); }
    }
  }

  /** One of the module's patterns covers the file. */
  ghost predicate Holds(m: Module, file: string) {
    exists k :: 0 <= k < |m.paths| && Covers(m.paths[k], file)
  }

  lemma HoldsIs(m: Module, file: string)
    ensures Owns(m, file) <==> Holds(m, file)
  {
    hide Matches, Covers;
    forall k | 0 <= k < |m.paths| ensures Matches(m.paths[k], file) <==> Covers(m.paths[k], file) {
      CoversIs(m.paths[k], file);
    }
    if p :| p in m.paths && Matches(p, file) { var k :| 0 <= k < |m.paths| && m.paths[k] == p; }
    if k :| 0 <= k < |m.paths| && Covers(m.paths[k], file) { assert m.paths[k] in m.paths; }
  }

  // ---- Valid paths ----------------------------------------------------------------------------------

  predicate PlainChar(c: char) {
    && c as int > 31 && c as int != 127
    && c != '\\' && c != ':' && c != '*' && c != '?' && c != '<' && c != '>' && c != '|'
  }

  predicate PlainPart(part: string) {
    |part| > 0 && part != "." && part != ".." && forall k :: 0 <= k < |part| ==> PlainChar(part[k]) && part[k] != '/'
  }

  /** Plain parts with slashes between them. */
  ghost predicate PlainPath(path: string) {
    exists parts: seq<string> ::
      |parts| > 0 && path == Joined(parts) && forall k :: 0 <= k < |parts| ==> PlainPart(parts[k])
  }

  lemma LiteralIs(literal: string)
    ensures ValidLiteral(literal) <==> PlainPath(literal)
  {
    if ValidLiteral(literal) { LiteralHasParts(literal); }
    if PlainPath(literal) { PartsAreLiteral(literal); }
  }

  lemma LiteralHasParts(literal: string)
    requires ValidLiteral(literal)
    ensures PlainPath(literal)
  {
    JoinedSegments(literal);
    var parts := Segments(literal);
    CharsOfJoined(parts);
    forall k | 0 <= k < |parts| ensures PlainPart(parts[k]) {
      var part := parts[k];
      assert part in parts;
      forall j | 0 <= j < |part| ensures PlainChar(part[j]) && part[j] != '/' {
        assert part[j] in literal;
        var i :| 0 <= i < |literal| && literal[i] == part[j];
        assert !IsForbidden(literal[i]);
      }
    }
  }

  lemma PartsAreLiteral(literal: string)
    requires PlainPath(literal)
    ensures ValidLiteral(literal)
  {
    var parts: seq<string> :|
      |parts| > 0 && literal == Joined(parts) && forall k :: 0 <= k < |parts| ==> PlainPart(parts[k]);
    SegmentsJoined(parts);
    CharsOfJoined(parts);
    assert PlainPart(parts[0]);
    forall i | 0 <= i < |literal| ensures !IsForbidden(literal[i]) {
      var c := literal[i];
      assert c in Joined(parts);
      if c != '/' {
        var k :| 0 <= k < |parts| && c in parts[k];
        assert PlainPart(parts[k]);
      }
    }
  }

  /** Up to 512 characters of plain parts. */
  ghost predicate PathText(path: string) {
    |path| < 513 && PlainPath(path)
  }

  /** A path, or a directory and what stands below it. */
  ghost predicate PatternText(pattern: string) {
    |pattern| < 513 && (PlainPath(pattern) || exists base: string :: Wild(pattern, base) && PlainPath(base))
  }

  lemma PathIs(path: string)
    ensures ValidPath(path) <==> PathText(path)
  {
    hide PlainPath, ValidLiteral;
    LiteralIs(path);
    if path == "" { NothingIsPlain(); }
  }

  lemma NothingIsPlain()
    ensures !PlainPath("")
  {
    if PlainPath("") { PartsAreLiteral(""); }
  }

  lemma StarIsNotPlain(path: string)
    requires PlainPath(path)
    ensures '*' !in path
  {
    PartsAreLiteral(path);
  }

  lemma StarEnds(pattern: string)
    requires IsWild(pattern)
    ensures '*' in pattern
  {
    assert pattern[|pattern| - 3..][2] == '*';
  }

  lemma PatternIs(pattern: string)
    ensures ValidPattern(pattern) <==> PatternText(pattern)
  {
    hide PlainPath, ValidLiteral;
    WildIs(pattern);
    LiteralIs(pattern);
    if IsWild(pattern) {
      LiteralIs(pattern[..|pattern| - 3]);
      if PlainPath(pattern) {
        StarIsNotPlain(pattern);
        StarEnds(pattern);
        assert false;
      }
    }
    if pattern == "" { NothingIsPlain(); }
  }

  /** Some valid path is covered by both patterns. */
  ghost predicate Share(p: string, q: string) {
    exists file: string :: PathText(file) && Covers(p, file) && Covers(q, file)
  }

  lemma SharingIs(p: string, q: string)
    requires ValidPattern(p) && ValidPattern(q)
    ensures Overlap(p, q) <==> Share(p, q)
  {
    hide ValidPattern, Overlap, Matches, Covers, ValidPath, PathText;
    OverlapIsExact(p, q);
    forall file: string
      ensures ValidPath(file) <==> PathText(file)
      ensures Matches(p, file) <==> Covers(p, file)
      ensures Matches(q, file) <==> Covers(q, file)
    {
      PathIs(file);
      CoversIs(p, file);
      CoversIs(q, file);
    }
  }

  // ---- Records ------------------------------------------------------------------------------------------

  predicate ListOfTexts(items: seq<string>, most: nat) {
    && |items| <= most
    && (forall k :: 0 <= k < |items| ==> 0 < |items[k]| < 513)
    && (forall j, k :: 0 <= j < |items| && 0 <= k < |items| && items[j] == items[k] ==> j == k)
  }

  predicate RiskText(risk: string) {
    risk == "low" || risk == "medium" || risk == "high" || risk == "critical" || risk == "restricted-evidence"
  }

  predicate CheckText(check: string) {
    || check == "desktop" || check == "desktop-electron" || check == "engine" || check == "offline-tests"
    || check == "package-verifier" || check == "secret-scan" || check == "windows-private-file"
    || check == "architecture" || check == "browser-e2e" || check == "mfa-e2e" || check == "migration-e2e"
    || check == "upgrade-compatibility" || check == "profile-e2e" || check == "renderer-layout"
    || check == "routing-restart" || check == "strict-proxy-auth" || check == "integration-contract"
    || check == "workspace-layout" || check == "all-required-checks" || check == "governance"
    || check == "link-check"
  }

  /** What a record of the map has to look like. */
  ghost predicate ModuleText(m: Module) {
    && IdText(m.id) && RiskText(m.risk)
    && ListOfTexts(m.paths, 256) && |m.paths| > 0 && (forall k :: 0 <= k < |m.paths| ==> PatternText(m.paths[k]))
    && ListOfTexts(m.publicEntrypoints, 256)
    && (forall k :: 0 <= k < |m.publicEntrypoints| ==> PathText(m.publicEntrypoints[k]))
    && ListOfTexts(m.allowedDependencies, 128)
    && (forall k :: 0 <= k < |m.allowedDependencies| ==> IdText(m.allowedDependencies[k]))
    && ListOfTexts(m.requiredChecks, 256) && |m.requiredChecks| > 0
    && (forall k :: 0 <= k < |m.requiredChecks| ==>
          IdText(m.requiredChecks[k]) && CheckText(m.requiredChecks[k]))
  }

  lemma ListIs(items: seq<string>, most: nat)
    ensures StringList(items, most) <==> ListOfTexts(items, most)
  {
    if ListOfTexts(items, most) {
      forall x | x in items ensures 1 <= |x| <= 512 { var k :| 0 <= k < |items| && items[k] == x; }
    }
  }

  lemma CheckIs(check: string)
    ensures check in REQUIRED_CHECKS <==> CheckText(check)
  {
  }

  lemma InAll(items: seq<string>, holds: string -> bool)
    ensures (forall x :: x in items ==> holds(x)) <==> forall k :: 0 <= k < |items| ==> holds(items[k])
  {
    if forall k :: 0 <= k < |items| ==> holds(items[k]) {
      forall x | x in items ensures holds(x) { var k :| 0 <= k < |items| && items[k] == x; }
    }
  }

  lemma ModuleIs(m: Module)
    ensures ValidModule(m) <==> ModuleText(m)
  {
    hide ValidPattern, PatternText, ValidPath, PathText, IsId, IdText, StringList, ListOfTexts, CheckText;
    IdIs(m.id);
    ListIs(m.paths, 256);
    ListIs(m.publicEntrypoints, 256);
    ListIs(m.allowedDependencies, 128);
    ListIs(m.requiredChecks, 256);
    forall x: string
      ensures ValidPattern(x) <==> PatternText(x)
      ensures ValidPath(x) <==> PathText(x)
      ensures IsId(x) <==> IdText(x)
      ensures x in REQUIRED_CHECKS <==> CheckText(x)
    {
      PatternIs(x);
      PathIs(x);
      IdIs(x);
      CheckIs(x);
    }
    hide REQUIRED_CHECKS;
    InAll(m.paths, x => ValidPattern(x));
    InAll(m.publicEntrypoints, x => ValidPath(x));
    InAll(m.allowedDependencies, x => IsId(x));
    InAll(m.requiredChecks, x => IsId(x) && x in REQUIRED_CHECKS);
  }

  // ---- The map ------------------------------------------------------------------------------------------

  /** Pattern `k` of module `i` stands before pattern `l` of module `j`. */
  predicate Earlier(i: nat, k: nat, j: nat, l: nat) {
    i < j || (i == j && k < l)
  }

  /** Two places of the map claim a file in common. */
  ghost predicate Collide(modules: seq<Module>, i: nat, k: nat, j: nat, l: nat) {
    && i < |modules| && k < |modules[i].paths| && j < |modules| && l < |modules[j].paths|
    && Earlier(i, k, j, l) && Share(modules[i].paths[k], modules[j].paths[l])
  }

  ghost predicate AllText(modules: seq<Module>) {
    forall i :: 0 <= i < |modules| ==> ModuleText(modules[i])
  }

  /** What is to be reported for a map. */
  ghost predicate MapDeserves(d: Document, e: Error) {
    if !d.headerValid || |d.modules| == 0 || |d.modules| > 128 then e == InvalidSchema
    else
      match e
      case InvalidModule => !AllText(d.modules)
      case DuplicateId(id) =>
        exists i, j ::
          0 <= i < j < |d.modules| && ModuleText(d.modules[i]) && ModuleText(d.modules[j]) &&
          d.modules[i].id == d.modules[j].id == id
      case EntrypointOutsideOwner(id, entry) =>
        exists i ::
          0 <= i < |d.modules| && ModuleText(d.modules[i]) && d.modules[i].id == id &&
          entry in d.modules[i].publicEntrypoints && !Holds(d.modules[i], entry)
      case UnknownDependency(id, dependency) =>
        AllText(d.modules) &&
        (exists i :: 0 <= i < |d.modules| && d.modules[i].id == id && dependency in d.modules[i].allowedDependencies) &&
        (forall i :: 0 <= i < |d.modules| ==> d.modules[i].id != dependency)
      case OverlappingPaths(first, second) =>
        AllText(d.modules) &&
        exists i: nat, k: nat, j: nat, l: nat ::
          Collide(d.modules, i, k, j, l) &&
          first == Claim(d.modules[i].paths[k], d.modules[i].id) &&
          second == Claim(d.modules[j].paths[l], d.modules[j].id)
      case _ => false
  }

  lemma AllAre(modules: seq<Module>)
    ensures AllValid(modules) <==> AllText(modules)
  {
    hide ValidModule, ModuleText;
    forall i | 0 <= i < |modules| ensures ValidModule(modules[i]) <==> ModuleText(modules[i]) { ModuleIs(modules[i]); }
    if AllText(modules) {
      forall m | m in modules ensures ValidModule(m) { var i :| 0 <= i < |modules| && modules[i] == m; }
    }
  }

  lemma RecordErrorsAre(d: Document, e: Error)
    requires d.headerValid && 0 < |d.modules| <= 128
    ensures RecordError(d.modules, e) <==>
      (e.InvalidModule? || e.DuplicateId? || e.EntrypointOutsideOwner?) && MapDeserves(d, e)
  {
    hide ValidModule, ModuleText, Owns, Holds;
    var modules := d.modules;
    forall i | 0 <= i < |modules|
      ensures ValidModule(modules[i]) <==> ModuleText(modules[i])
      ensures e.EntrypointOutsideOwner? ==> (Owns(modules[i], e.entry) <==> Holds(modules[i], e.entry))
    {
      ModuleIs(modules[i]);
      if e.EntrypointOutsideOwner? { HoldsIs(modules[i], e.entry); }
    }
    match e
    case DuplicateId(id) =>
      forall j: nat | j < |modules| ensures RecordErrorAt(modules, j, e) <==>
        ModuleText(modules[j]) && id == modules[j].id &&
        exists i :: 0 <= i < j && ModuleText(modules[i]) && modules[i].id == id
      {
        EarlierId(modules, j, id);
      }
    case EntrypointOutsideOwner(id, entry) =>
      if j: nat :| j < |modules| && RecordErrorAt(modules, j, e) { assert ModuleText(modules[j]); }
      if MapDeserves(d, e) {
        var i :| 0 <= i < |modules| && ModuleText(modules[i]) && modules[i].id == id &&
                 entry in modules[i].publicEntrypoints && !Holds(modules[i], entry);
        assert RecordErrorAt(modules, i, e);
      }
    case InvalidModule =>
      if i :| 0 <= i < |modules| && !ModuleText(modules[i]) { assert RecordErrorAt(modules, i, e); }
    case _ =>
  }

  lemma EarlierId(modules: seq<Module>, j: nat, id: string)
    requires j < |modules| && forall i :: 0 <= i < |modules| ==> (ValidModule(modules[i]) <==> ModuleText(modules[i]))
    ensures id in ValidIds(modules[..j]) <==> exists i :: 0 <= i < j && ModuleText(modules[i]) && modules[i].id == id
  {
    hide ValidModule, ModuleText;
    var front := modules[..j];
    if m :| m in front && ValidModule(m) && m.id == id {
      var i :| 0 <= i < |front| && front[i] == m;
      assert modules[i] == m;
    }
    if i :| 0 <= i < j && ModuleText(modules[i]) && modules[i].id == id {
      assert front[i] == modules[i] && modules[i] in front;
    }
  }

  lemma DependencyErrorsAre(d: Document, e: Error)
    requires d.headerValid && 0 < |d.modules| <= 128 && AllText(d.modules)
    ensures DependencyError(d.modules, e) <==> e.UnknownDependency? && MapDeserves(d, e)
  {
    hide AllText;
    var modules := d.modules;
    if e.UnknownDependency? {
      if m :| m in modules && UnknownDependencyOf(modules, m, e) {
        var i :| 0 <= i < |modules| && modules[i] == m;
        forall j | 0 <= j < |modules| ensures modules[j].id != e.dependency { assert modules[j] in modules; }
      }
      if MapDeserves(d, e) {
        var i :| 0 <= i < |modules| && modules[i].id == e.id && e.dependency in modules[i].allowedDependencies;
        assert UnknownDependencyOf(modules, modules[i], e);
      }
    }
  }

  lemma OverlapErrorsAre(d: Document, e: Error)
    requires d.headerValid && 0 < |d.modules| <= 128 && AllText(d.modules)
    ensures OverlapError(Claims(d.modules), e) <==> e.OverlappingPaths? && MapDeserves(d, e)
  {
    var modules := d.modules;
    var claims := Claims(modules);
    if OverlapError(claims, e) { CollisionFound(d, e); }
    if e.OverlappingPaths? && MapDeserves(d, e) {
      var i: nat, k: nat, j: nat, l: nat :|
        Collide(modules, i, k, j, l) && e.first == Claim(modules[i].paths[k], modules[i].id) &&
        e.second == Claim(modules[j].paths[l], modules[j].id);
      CollisionReported(modules, i, k, j, l, e);
    }
  }

  lemma CollisionReported(modules: seq<Module>, i: nat, k: nat, j: nat, l: nat, e: Error)
    requires AllText(modules) && Collide(modules, i, k, j, l)
    requires e == OverlappingPaths(Claim(modules[i].paths[k], modules[i].id), Claim(modules[j].paths[l], modules[j].id))
    ensures OverlapError(Claims(modules), e)
  {
    hide ModuleText, Share, Overlap, Claims;
    PatternsAreValid(modules, i, k);
    PatternsAreValid(modules, j, l);
    SharingIs(modules[i].paths[k], modules[j].paths[l]);
    ClaimStands(modules, i, k);
    ClaimStands(modules, j, l);
    ClaimsAreOrdered(modules, i, k, j, l);
    assert OverlapAt(Claims(modules), Position(modules, i, k), Position(modules, j, l), e);
  }

  lemma PatternsAreValid(modules: seq<Module>, i: nat, k: nat)
    requires AllText(modules) && i < |modules| && k < |modules[i].paths|
    ensures ValidPattern(modules[i].paths[k])
  {
    hide PatternText, ValidPattern;
    assert ModuleText(modules[i]);
    PatternIs(modules[i].paths[k]);
  }

  lemma CollisionFound(d: Document, e: Error)
    requires d.headerValid && 0 < |d.modules| <= 128 && AllText(d.modules) && OverlapError(Claims(d.modules), e)
    ensures e.OverlappingPaths? && MapDeserves(d, e)
  {
    hide AllText, Share, Overlap, Claims, Position;
    var modules := d.modules;
    var a: nat, b: nat :| a < b < |Claims(modules)| && OverlapAt(Claims(modules), a, b, e);
    var i, k := Locate(modules, a);
    var j, l := Locate(modules, b);
    ClaimStands(modules, i, k);
    ClaimStands(modules, j, l);
    if !Earlier(i, k, j, l) && (i, k) != (j, l) { ClaimsAreOrdered(modules, j, l, i, k); }
    PatternsAreValid(modules, i, k);
    PatternsAreValid(modules, j, l);
    SharingIs(modules[i].paths[k], modules[j].paths[l]);
    assert Collide(modules, i, k, j, l);
  }

  /** The schema check reports exactly this. */
  lemma MapErrorsAre(d: Document, e: Error)
    ensures SchemaError(d, e) <==> MapDeserves(d, e)
  {
    hide ModuleText, Collide, Holds, RecordError, DependencyError, OverlapError, Claims;
    if d.headerValid && 0 < |d.modules| <= 128 {
      AllAre(d.modules);
      RecordErrorsAre(d, e);
      if AllText(d.modules) {
        DependencyErrorsAre(d, e);
        OverlapErrorsAre(d, e);
      }
    }
  }

  // ---- Coverage -----------------------------------------------------------------------------------------

  /** The files that have to be owned. */
  ghost predicate Production(file: string) {
    || file == "desktop/main.js" || file == "desktop/preload.js" || file == "desktop/campus-preload.js"
    || file == "hkustgzconnect"
    || Under("desktop/lib", file) || Under("desktop/renderer", file) || Under("desktop/assets", file)
    || Under("independent/src", file) || Under("independent/config", file) || Under("tools/mac-cli", file)
  }

  lemma StartsIs(base: string, prefix: string, file: string)
    requires prefix == base + "/"
    ensures prefix <= file <==> Under(base, file)
  {
    if prefix <= file { assert file == base + "/" + file[|prefix|..]; }
    if rest: string :| file == base + "/" + rest { assert prefix <= file; }
  }

  lemma ScopeIs(file: string)
    ensures SourceInScope(file) <==> Production(file)
  {
    hide Under;
    StartsIs("desktop/lib", "desktop/lib/", file);
    StartsIs("desktop/renderer", "desktop/renderer/", file);
    StartsIs("desktop/assets", "desktop/assets/", file);
    StartsIs("independent/src", "independent/src/", file);
    StartsIs("independent/config", "independent/config/", file);
    StartsIs("tools/mac-cli", "tools/mac-cli/", file);
  }

  /** What is to be reported for the files, given a clean map. */
  ghost predicate FilesDeserve(modules: seq<Module>, files: seq<string>, e: Error) {
    match e
    case UnownedPath(f) =>
      f in files && Production(f) && forall i :: 0 <= i < |modules| ==> !Holds(modules[i], f)
    case NoSources => forall f :: f in files ==> !Production(f)
    case MissingEntrypoint(id, entry) =>
      entry !in files &&
      exists i :: 0 <= i < |modules| && modules[i].id == id && entry in modules[i].publicEntrypoints
    case StalePath(id, pattern) =>
      (forall f :: f in files ==> !Covers(pattern, f)) &&
      exists i :: 0 <= i < |modules| && modules[i].id == id && pattern in modules[i].paths
    case _ => false
  }

  ghost predicate InventoryText(files: seq<string>) {
    && |files| < 10001
    && (forall k :: 0 <= k < |files| ==> PathText(files[k]))
    && (forall j, k :: 0 <= j < |files| && 0 <= k < |files| && files[j] == files[k] ==> j == k)
  }

  lemma InventoryIs(files: seq<string>)
    ensures ValidInventory(files) <==> InventoryText(files)
  {
    hide ValidPath, PathText;
    forall x: string ensures ValidPath(x) <==> PathText(x) { PathIs(x); }
    InAll(files, x => ValidPath(x));
  }

  /** Of a clean map and plain files the coverage check reports exactly this. */
  lemma CoverageErrorsAre(d: Document, files: seq<string>, e: Error)
    requires MapClean(d) && ValidInventory(files)
    ensures CoverageError(d.modules, files, e) <==> FilesDeserve(d.modules, files, e)
  {
    hide MapClean, ValidInventory, SourceInScope, Production, Owns, Holds, Matches, Covers;
    var modules := d.modules;
    match e
    case MultipleOwners(_) => NeverMultiple(d, files);
    case UnownedPath(f) =>
      ScopeIs(f);
      forall i | 0 <= i < |modules| ensures Owns(modules[i], f) <==> Holds(modules[i], f) { HoldsIs(modules[i], f); }
      var owners := OwnersOf(modules, f);
      if owners == [] {
        forall i | 0 <= i < |modules| ensures !Owns(modules[i], f) { assert modules[i] in modules; }
      } else {
        assert owners[0] in owners;
        var i :| 0 <= i < |modules| && modules[i] == owners[0];
      }
    case NoSources =>
      forall f: string ensures SourceInScope(f) <==> Production(f) { ScopeIs(f); }
      assert InScope(files) == {} <==> forall f :: f in files ==> f !in InScope(files);
    case MissingEntrypoint(id, entry) =>
      if m :| m in modules && EntrypointMissing(m, files, e) { var i :| 0 <= i < |modules| && modules[i] == m; }
      if i :| 0 <= i < |modules| && modules[i].id == id && entry in modules[i].publicEntrypoints && entry !in files {
        assert EntrypointMissing(modules[i], files, e);
      }
    case StalePath(id, pattern) =>
      forall f: string ensures Matches(pattern, f) <==> Covers(pattern, f) { CoversIs(pattern, f); }
      if m :| m in modules && PatternStale(m, files, e) { var i :| 0 <= i < |modules| && modules[i] == m; }
      if FilesDeserve(modules, files, e) {
        var i :| 0 <= i < |modules| && modules[i].id == id && pattern in modules[i].paths;
        assert PatternStale(modules[i], files, e);
      }
    case _ =>
  }

  /** The owner of a file is recorded exactly for the files that have to be owned, and is the module that holds it. */
  lemma OwnersAre(d: Document, files: seq<string>, owners: map<string, string>, f: string, id: string)
    requires MapClean(d) && ValidInventory(files) && OwnersAgree(d.modules, files, owners)
    ensures f in owners && owners[f] == id <==>
      f in files && Production(f) && exists i :: 0 <= i < |d.modules| && Holds(d.modules[i], f) && d.modules[i].id == id
  {
    hide MapClean, ValidPath, SourceInScope, Production, Owns, Holds;
    ScopeIs(f);
    if f in files {
      CleanMapOwners(d, f);
      var found := OwnersOf(d.modules, f);
      forall i | 0 <= i < |d.modules| ensures Holds(d.modules[i], f) <==> d.modules[i] in found {
        HoldsIs(d.modules[i], f);
      }
      if |found| == 1 {
        assert found[0] in found;
        var i :| 0 <= i < |d.modules| && d.modules[i] == found[0];
        assert Holds(d.modules[i], f);
      }
    }
  }

  // ---- Imports --------------------------------------------------------------------------------------------

  /** The import crosses modules without leave, or past the public entrypoints. */
  ghost predicate Trespasses(modules: seq<Module>, v: Violation) {
    exists i, j ::
      0 <= i < |modules| && 0 <= j < |modules| && Holds(modules[i], v.edge.from) && Holds(modules[j], v.edge.to) &&
      modules[i].id != modules[j].id &&
      v.undeclared == (modules[j].id !in modules[i].allowedDependencies) &&
      v.privateTarget == (v.edge.to !in modules[j].publicEntrypoints) && (v.undeclared || v.privateTarget)
  }

  lemma ViolationsAre(modules: seq<Module>, v: Violation)
    ensures Violates(modules, v) <==> Trespasses(modules, v)
  {
    hide Owns, Holds;
    forall i | 0 <= i < |modules|
      ensures Owns(modules[i], v.edge.from) <==> Holds(modules[i], v.edge.from)
      ensures Owns(modules[i], v.edge.to) <==> Holds(modules[i], v.edge.to)
    {
      HoldsIs(modules[i], v.edge.from);
      HoldsIs(modules[i], v.edge.to);
    }
    if Violates(modules, v) {
      var s, t :| s in modules && t in modules && CrossesBadly(s, t, v);
      var i :| 0 <= i < |modules| && modules[i] == s;
      var j :| 0 <= j < |modules| && modules[j] == t;
    }
    if i, j :| 0 <= i < |modules| && 0 <= j < |modules| && CrossesBadly(modules[i], modules[j], v) {
      assert modules[i] in modules && modules[j] in modules;
    }
  }

  lemma ImportsAreValid(imports: seq<Edge>)
    ensures ValidImports(imports) <==>
      |imports| < 10001 &&
      forall k :: 0 <= k < |imports| ==> PathText(imports[k].from) && PathText(imports[k].to)
  {
    hide ValidPath, PathText;
    forall x: string ensures ValidPath(x) <==> PathText(x) { PathIs(x); }
    if forall k :: 0 <= k < |imports| ==> PathText(imports[k].from) && PathText(imports[k].to) {
      forall e | e in imports ensures ValidPath(e.from) && ValidPath(e.to) {
        var k :| 0 <= k < |imports| && imports[k] == e;
      }
    }
  }

  /** An end of an import is reported exactly if no module holds it. */
  lemma ImportErrorsAre(modules: seq<Module>, imports: seq<Edge>, e: Error)
    ensures SomeImportError(modules, imports, e) <==>
      match e
      case UnownedSource(file) =>
        (exists k :: 0 <= k < |imports| && imports[k].from == file) &&
        forall i :: 0 <= i < |modules| ==> !Holds(modules[i], file)
      case UnownedTarget(file) =>
        (exists k :: 0 <= k < |imports| && imports[k].to == file) &&
        forall i :: 0 <= i < |modules| ==> !Holds(modules[i], file)
      case _ => false
  {
    hide Owns, Holds;
    match e
    case UnownedSource(file) =>
      NoOwnerIs(modules, file);
      if k :| 0 <= k < |imports| && imports[k].from == file { assert imports[k] in imports; }
    case UnownedTarget(file) =>
      NoOwnerIs(modules, file);
      if k :| 0 <= k < |imports| && imports[k].to == file { assert imports[k] in imports; }
    case _ =>
  }

  lemma NoOwnerIs(modules: seq<Module>, file: string)
    ensures (forall m :: m in modules ==> !Owns(m, file)) <==> forall i :: 0 <= i < |modules| ==>
      !Holds(modules[i], file)
  {
    hide Owns, Holds;
    forall i | 0 <= i < |modules| ensures Owns(modules[i], file) <==> Holds(modules[i], file) {
      HoldsIs(modules[i], file);
    }
    if forall i :: 0 <= i < |modules| ==> !Holds(modules[i], file) {
      forall m | m in modules ensures !Owns(m, file) { var i :| 0 <= i < |modules| && modules[i] == m; }
    }
  }
}
