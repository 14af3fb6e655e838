/** The module map: path patterns that own files, and the checks that make ownership unique. */
module ModuleMap {
  import opened Wrappers
  import opened Identifiers
  import opened Paths

  datatype Module = Module(
    id: string,
    paths: seq<string>,
    publicEntrypoints: seq<string>,
    allowedDependencies: seq<string>,
    risk: string,
    requiredChecks: seq<string>)

  /** A parsed map; `headerValid` holds if the fields beside the modules are as they have to be. */
  datatype Document = Document(headerValid: bool, modules: seq<Module>)

  datatype Error =
    | InvalidSchema
    | InvalidModule
    | DuplicateId(id: string)
    | EntrypointOutsideOwner(id: string, entry: string)
    | UnknownDependency(id: string, dependency: string)
    | OverlappingPaths(first: Claim, second: Claim)
    | InvalidInventory
    | InvalidImports
    | MultipleOwners(file: string)
    | UnownedPath(file: string)
    | NoSources
    | MissingEntrypoint(id: string, entry: string)
    | StalePath(id: string, pattern: string)
    | UnownedSource(file: string)
    | UnownedTarget(file: string)

  /** A pattern and the module that claims it. */
  datatype Claim = Claim(pattern: string, id: string)

  // ---- Paths and patterns -------------------------------------------------------------------------

  predicate IsForbidden(c: char) {
    c as int <= 0x1f || c as int == 0x7f || c in {'\\', ':', '*', '?', '<', '>', '|'}
  }

  predicate ValidLiteral(literal: string) {
    && |literal| > 0
    && (forall i :: 0 <= i < |literal| ==> !IsForbidden(literal[i]))
    && (forall part :: part in Segments(literal) ==> part != "" && part != "." && part != "..")
  }

  predicate IsWild(pattern: string) {
    EndsWith(pattern, "/**")
  }

  predicate ValidPath(file: string) {
    0 < |file| <= 512 && ValidLiteral(file)
  }

  predicate ValidPattern(pattern: string) {
    0 < |pattern| <= 512 && ValidLiteral(if IsWild(pattern) then pattern[..|pattern| - 3] else pattern)
  }

  /** The directory prefix of a wild pattern, with its slash. */
  function Prefix(pattern: string): string
    requires IsWild(pattern)
  {
    pattern[..|pattern| - 2]
  }

  predicate Matches(pattern: string, file: string) {
    if IsWild(pattern) then Prefix(pattern) <= file else pattern == file
  }

  predicate Overlap(left: string, right: string) {
    if left == right then true
    else if IsWild(left) && IsWild(right) then Prefix(left) <= Prefix(right) || Prefix(right) <= Prefix(left)
    else if IsWild(left) then Matches(left, right)
    else IsWild(right) && Matches(right, left)
  }

  /** A valid file below a valid wild pattern. */
  function FileBelow(pattern: string): string
    requires IsWild(pattern)
  {
    Prefix(pattern) + "f"
  }

  lemma FileBelowIsValid(pattern: string)
    requires ValidPattern(pattern) && IsWild(pattern)
    ensures ValidPath(FileBelow(pattern))
  {
    var base := pattern[..|pattern| - 3];
    assert pattern[|pattern| - 3..] == "/**" && Prefix(pattern) == base + "/";
    assert FileBelow(pattern) == base + "/" + "f";
    SegmentsBelow(base, "f");
    assert Segments("f") == ["f"] by {
      assert "f"[1..] == "" && Segments("") == [""];
      var none: seq<string> := [""];
      assert Segments("f") == [['f'] + none[0]] + none[1..];
      assert ['f'] + none[0] == "f" && none[1..] == [];
    }
  }

  /** The file that two overlapping patterns are shown to share. */
  function SharedFile(p: string, q: string): string {
    if !IsWild(p) then p
    else if !IsWild(q) then q
    else if Prefix(p) <= Prefix(q) then FileBelow(q)
    else FileBelow(p)
  }

  /** Two valid patterns overlap exactly if some valid path matches both. */
  lemma OverlapIsExact(p: string, q: string)
    requires ValidPattern(p) && ValidPattern(q)
    ensures Overlap(p, q) ==>
      ValidPath(SharedFile(p, q)) && Matches(p, SharedFile(p, q)) && Matches(q, SharedFile(p, q))
    ensures Overlap(p, q) <==> exists file :: ValidPath(file) && Matches(p, file) && Matches(q, file)
  {
    if IsWild(p) { FileBelowIsValid(p); }
    if IsWild(q) { FileBelowIsValid(q); }
    if Overlap(p, q) {
      var shared := SharedFile(p, q);
      assert ValidPath(shared) && Matches(p, shared) && Matches(q, shared);
    }
    forall file | Matches(p, file) && Matches(q, file) ensures Overlap(p, q) {
      if IsWild(p) && IsWild(q) { PrefixesNest(Prefix(p), Prefix(q), file); }
    }
  }

  lemma PrefixesNest(a: string, b: string, file: string)
    requires a <= file && b <= file
    ensures a <= b || b <= a
  {
    if |a| <= |b| {
      assert a == file[..|a|] == b[..|a|];
    } else {
      assert b == file[..|b|] == a[..|b|];
    }
  }

  lemma OverlapIsSymmetric(p: string, q: string)
    ensures Overlap(p, q) == Overlap(q, p)
  {
  }

  // ---- Records --------------------------------------------------------------------------------------

  const RISKS: set<string> := {"low", "medium", "high", "critical", "restricted-evidence"}

  const REQUIRED_CHECKS: set<string> := {
    "desktop", "desktop-electron", "engine", "offline-tests", "package-verifier",
    "secret-scan", "windows-private-file", "architecture", "browser-e2e", "mfa-e2e",
    "migration-e2e", "upgrade-compatibility", "profile-e2e", "renderer-layout",
    "routing-restart", "strict-proxy-auth", "integration-contract", "workspace-layout",
    "all-required-checks", "governance", "link-check"
  }

  predicate StringList(items: seq<string>, max: nat) {
    && |items| <= max
    && (forall x :: x in items ==> 1 <= |x| <= 512)
    && (forall i, j :: 0 <= i < j < |items| ==> items[i] != items[j])
  }

  predicate ValidModule(m: Module) {
    && IsId(m.id)
    && StringList(m.paths, 256) && m.paths != [] && (forall x :: x in m.paths ==> ValidPattern(x))
    && StringList(m.publicEntrypoints, 256) && (forall x :: x in m.publicEntrypoints ==> ValidPath(x))
    && StringList(m.allowedDependencies, 128) && (forall x :: x in m.allowedDependencies ==> IsId(x))
    && m.risk in RISKS
    && StringList(m.requiredChecks, 256) && m.requiredChecks != []
    && (forall x :: x in m.requiredChecks ==> IsId(x) && x in REQUIRED_CHECKS)
  }

  predicate Owns(m: Module, file: string) {
    exists p :: p in m.paths && Matches(p, file)
  }

  predicate EntrypointsOwned(m: Module) {
    forall e :: e in m.publicEntrypoints ==> Owns(m, e)
  }

  function ClaimsOf(m: Module): seq<Claim> {
    seq(|m.paths|, i requires 0 <= i < |m.paths| => Claim(m.paths[i], m.id))
  }

  /** The patterns of all modules, in order. */
  function Claims(modules: seq<Module>): seq<Claim> {
    if modules == [] then []
    else Claims(modules[..|modules| - 1]) + ClaimsOf(modules[|modules| - 1])
  }

  function Ids(modules: seq<Module>): set<string> {
    set m | m in modules :: m.id
  }

  function ValidIds(modules: seq<Module>): set<string> {
    set m | m in modules && ValidModule(m) :: m.id
  }

  ghost predicate IdsUnique(modules: seq<Module>) {
    forall i, j :: 0 <= i < j < |modules| ==> modules[i].id != modules[j].id
  }

  ghost predicate ClaimsDisjoint(claims: seq<Claim>) {
    forall i, j :: 0 <= i < j < |claims| ==> !Overlap(claims[i].pattern, claims[j].pattern)
  }

  predicate AllValid(modules: seq<Module>) {
    forall m :: m in modules ==> ValidModule(m)
  }

  ghost predicate MapClean(d: Document) {
    && HeaderOk(d)
    && AllValid(d.modules)
    && (forall m :: m in d.modules ==> EntrypointsOwned(m))
    && IdsUnique(d.modules)
    && (forall m, x :: m in d.modules && x in m.allowedDependencies ==> x in Ids(d.modules))
    && ClaimsDisjoint(Claims(d.modules))
  }

  predicate HeaderOk(d: Document) {
    d.headerValid && 1 <= |d.modules| <= 128
  }

  // ---- The schema check -------------------------------------------------------------------------

  /** The error says something true of the record at `j`. */
  predicate RecordErrorAt(modules: seq<Module>, j: nat, e: Error)
    requires j < |modules|
  {
    var m := modules[j];
    match e
    case InvalidModule => !ValidModule(m)
    case DuplicateId(id) => ValidModule(m) && id == m.id && id in ValidIds(modules[..j])
    case EntrypointOutsideOwner(id, entry) =>
      ValidModule(m) && id == m.id && entry in m.publicEntrypoints && !Owns(m, entry)
    case _ => false
  }

  predicate UnknownDependencyOf(modules: seq<Module>, m: Module, e: Error) {
    e.UnknownDependency? && e.id == m.id && e.dependency in m.allowedDependencies && e.dependency !in Ids(modules)
  }

  predicate OverlapAt(claims: seq<Claim>, i: nat, j: nat, e: Error)
    requires i < j < |claims|
  {
    e == OverlappingPaths(claims[i], claims[j]) && Overlap(claims[i].pattern, claims[j].pattern)
  }

  ghost predicate RecordError(modules: seq<Module>, e: Error) {
    exists j: nat :: j < |modules| && RecordErrorAt(modules, j, e)
  }

  ghost predicate DependencyError(modules: seq<Module>, e: Error) {
    exists m :: m in modules && UnknownDependencyOf(modules, m, e)
  }

  ghost predicate OverlapError(claims: seq<Claim>, e: Error) {
    exists i: nat, j: nat :: i < j < |claims| && OverlapAt(claims, i, j, e)
  }

  /** What the schema check has to report: dependencies and overlaps only if every record is valid. */
  ghost predicate SchemaError(d: Document, e: Error) {
    if !HeaderOk(d) then e == InvalidSchema
    else
      || RecordError(d.modules, e)
      || (AllValid(d.modules) && (DependencyError(d.modules, e) || OverlapError(Claims(d.modules), e)))
  }

  ghost predicate Reports(errors: set<Error>, d: Document) {
    forall e :: e in errors <==> SchemaError(d, e)
  }

  /** There is nothing to report exactly if the map is clean. */
  lemma CleanIsUnreported(d: Document)
    ensures MapClean(d) <==> forall e :: !SchemaError(d, e)
  {
    hide ValidModule, Overlap, Owns;
    if MapClean(d) {
      forall e | SchemaError(d, e) ensures false { CleanHasNoError(d, e); }
    } else if !HeaderOk(d) {
      assert SchemaError(d, InvalidSchema);
    } else {
      UncleanHasError(d);
    }
  }

  lemma CleanHasNoError(d: Document, e: Error)
    requires MapClean(d)
    ensures !SchemaError(d, e)
  {
    hide ValidModule, Overlap, Owns;
    forall j: nat | j < |d.modules| ensures !RecordErrorAt(d.modules, j, e) {
      assert d.modules[j] in d.modules;
      assert forall m :: m in d.modules[..j] ==> m.id != d.modules[j].id;
    }
  }

  lemma UncleanHasError(d: Document)
    requires HeaderOk(d) && !MapClean(d)
    ensures exists e :: SchemaError(d, e)
  {
    hide ValidModule, Overlap, Owns;
    var modules := d.modules;
    if j: nat :| j < |modules| && !ValidModule(modules[j]) {
      assert RecordErrorAt(modules, j, InvalidModule);
      assert SchemaError(d, InvalidModule);
    } else if j: nat :| j < |modules| && !EntrypointsOwned(modules[j]) {
      var entry :| entry in modules[j].publicEntrypoints && !Owns(modules[j], entry);
      assert RecordErrorAt(modules, j, EntrypointOutsideOwner(modules[j].id, entry));
      assert SchemaError(d, EntrypointOutsideOwner(modules[j].id, entry));
    } else if i: nat, j: nat :| i < j < |modules| && modules[i].id == modules[j].id {
      assert modules[i] in modules[..j];
      assert RecordErrorAt(modules, j, DuplicateId(modules[j].id));
      assert SchemaError(d, DuplicateId(modules[j].id));
    } else {
      assert AllValid(modules);
      UncleanPatternsHaveError(d);
    }
  }

  lemma UncleanPatternsHaveError(d: Document)
    requires HeaderOk(d) && AllValid(d.modules)
    requires (exists m, x :: m in d.modules && x in m.allowedDependencies && x !in Ids(d.modules)) ||
      !ClaimsDisjoint(Claims(d.modules))
    ensures exists e :: SchemaError(d, e)
  {
    hide ValidModule, Overlap, Owns, Claims;
    if m, x :| m in d.modules && x in m.allowedDependencies && x !in Ids(d.modules) {
      assert UnknownDependencyOf(d.modules, m, UnknownDependency(m.id, x));
      assert SchemaError(d, UnknownDependency(m.id, x));
    } else {
      var claims := Claims(d.modules);
      var i: nat, j: nat :| i < j < |claims| && Overlap(claims[i].pattern, claims[j].pattern);
      assert OverlapAt(claims, i, j, OverlappingPaths(claims[i], claims[j]));
      assert SchemaError(d, OverlappingPaths(claims[i], claims[j]));
    }
  }

  /** The first pass over the records. */
  method CheckRecords(modules: seq<Module>) returns (errors: set<Error>, ids: set<string>, claims: seq<Claim>)
    ensures forall e :: e in errors <==> RecordError(modules, e)
    ensures AllValid(modules) ==> ids == Ids(modules) && claims == Claims(modules)
  {
    hide ValidModule, Owns;
    errors, ids, claims := {}, {}, [];
    for i := 0 to |modules|
      invariant ids == ValidIds(modules[..i])
      invariant AllValid(modules[..i]) ==> claims == Claims(modules[..i])
      invariant forall e :: e in errors <==> exists j: nat :: j < i && RecordErrorAt(modules, j, e)
    {
      var m := modules[i];
      assert modules[..i + 1] == modules[..i] + [m];
      assert m in modules[..i + 1];
      if !ValidModule(m) {
        errors := errors + {InvalidModule};
        assert RecordErrorAt(modules, i, InvalidModule);
        continue;
      }
      if m.id in ids {
        errors := errors + {DuplicateId(m.id)};
        assert RecordErrorAt(modules, i, DuplicateId(m.id));
      }
      ids := ids + {m.id};
      claims := PushClaims(claims, m);
      assert modules[..i + 1][..i] == modules[..i];
      var outside := set x | x in m.publicEntrypoints && !Owns(m, x) :: EntrypointOutsideOwner(m.id, x);
      assert forall e :: e in outside <==> e.EntrypointOutsideOwner? && RecordErrorAt(modules, i, e);
      errors := errors + outside;
    }
    assert modules[..|modules|] == modules;
    if AllValid(modules) { assert ValidIds(modules) == Ids(modules); }
  }

  method PushClaims(before: seq<Claim>, m: Module) returns (claims: seq<Claim>)
    ensures claims == before + ClaimsOf(m)
  {
    claims := before;
    for k := 0 to |m.paths|
      invariant claims == before + ClaimsOf(m)[..k]
    {
      claims := claims + [Claim(m.paths[k], m.id)];
    }
  }

  method CheckDependencies(modules: seq<Module>, ids: set<string>) returns (errors: set<Error>)
    requires ids == Ids(modules)
    ensures forall e :: e in errors <==> DependencyError(modules, e)
  {
    errors := {};
    for i := 0 to |modules|
      invariant forall e :: e in errors <==> exists m :: m in modules[..i] && UnknownDependencyOf(modules, m, e)
    {
      var m := modules[i];
      assert modules[..i + 1] == modules[..i] + [m];
      var unknown := set x | x in m.allowedDependencies && x !in ids :: UnknownDependency(m.id, x);
      assert forall e :: e in unknown <==> UnknownDependencyOf(modules, m, e);
      errors := errors + unknown;
    }
    assert modules[..|modules|] == modules;
  }

  /** Compares every claim with every later one. */
  method CheckOverlaps(claims: seq<Claim>) returns (errors: set<Error>)
    ensures forall e :: e in errors <==> OverlapError(claims, e)
  {
    hide Overlap;
    errors := {};
    for i := 0 to |claims|
      invariant forall e :: e in errors <==>
        exists a: nat, b: nat :: a < i && a < b < |claims| && OverlapAt(claims, a, b, e)
    {
      for j := i + 1 to |claims|
        invariant forall e :: e in errors <==> exists a: nat, b: nat ::
          (a < i || (a == i && b < j)) && a < b < |claims| && OverlapAt(claims, a, b, e)
      {
        if Overlap(claims[i].pattern, claims[j].pattern) {
          errors := errors + {OverlappingPaths(claims[i], claims[j])};
          assert OverlapAt(claims, i, j, OverlappingPaths(claims[i], claims[j]));
        }
      }
    }
  }

  /** Reports exactly the errors of the map, and so nothing exactly if the map is clean. */
  method SchemaErrors(d: Document) returns (errors: set<Error>)
    ensures Reports(errors, d)
    ensures errors == {} <==> MapClean(d)
  {
    hide MapClean, RecordError, DependencyError, OverlapError, AllValid;
    CleanIsUnreported(d);
    if !HeaderOk(d) { return {InvalidSchema}; }
    var ids, claims;
    errors, ids, claims := CheckRecords(d.modules);
    InvalidIsReported(d.modules);
    if InvalidModule in errors { return errors; }
    var unknown := CheckDependencies(d.modules, ids);
    var overlapping := CheckOverlaps(claims);
    errors := errors + unknown + overlapping;
  }

  lemma InvalidIsReported(modules: seq<Module>)
    ensures RecordError(modules, InvalidModule) <==> !AllValid(modules)
  {
    hide ValidModule, Owns;
    if m :| m in modules && !ValidModule(m) {
      var j: nat :| j < |modules| && modules[j] == m;
      assert RecordErrorAt(modules, j, InvalidModule);
    }
  }

  // ---- Unique owners ------------------------------------------------------------------------------

  lemma {:induction false} ClaimsOfPrefix(modules: seq<Module>, i: nat)
    requires i <= |modules|
    ensures Claims(modules[..i]) <= Claims(modules)
    decreases |modules| - i
  {
    if i == |modules| {
      assert modules[..i] == modules;
    } else {
      ClaimsOfPrefix(modules, i + 1);
      assert modules[..i + 1][..i] == modules[..i];
    }
  }

  /** Where the claim for pattern `k` of module `i` stands. */
  function Position(modules: seq<Module>, i: nat, k: nat): (a: nat)
    requires i < |modules| && k < |modules[i].paths|
  {
    |Claims(modules[..i])| + k
  }

  lemma ClaimStands(modules: seq<Module>, i: nat, k: nat)
    requires i < |modules| && k < |modules[i].paths|
    ensures Position(modules, i, k) < |Claims(modules[..i + 1])| <= |Claims(modules)|
    ensures Claims(modules)[Position(modules, i, k)] == Claim(modules[i].paths[k], modules[i].id)
  {
    assert modules[..i + 1][..i] == modules[..i];
    ClaimsOfPrefix(modules, i + 1);
    var upTo := Claims(modules[..i + 1]);
    assert upTo[Position(modules, i, k)] == ClaimsOf(modules[i])[k];
    assert Claims(modules)[..|upTo|] == upTo;
  }

  predicate Before(i: nat, k: nat, j: nat, l: nat) {
    i < j || (i == j && k < l)
  }

  lemma ClaimsAreOrdered(modules: seq<Module>, i: nat, k: nat, j: nat, l: nat)
    requires i < |modules| && k < |modules[i].paths| && j < |modules| && l < |modules[j].paths|
    requires Before(i, k, j, l)
    ensures Position(modules, i, k) < Position(modules, j, l)
  {
    if i < j {
      ClaimStands(modules, i, k);
      ClaimsOfPrefix(modules[..j], i + 1);
      assert modules[..j][..i + 1] == modules[..i + 1];
    }
  }

  lemma {:induction false} Locate(modules: seq<Module>, a: nat) returns (i: nat, k: nat)
    requires a < |Claims(modules)|
    ensures i < |modules| && k < |modules[i].paths| && Position(modules, i, k) == a
  {
    var last := |modules| - 1;
    var front := modules[..last];
    if a < |Claims(front)| {
      i, k := Locate(front, a);
      assert front[..i] == modules[..i];
    } else {
      i, k := last, a - |Claims(front)|;
    }
  }

  /** No two patterns overlap, said of the modules and not of their flat list. */
  ghost predicate PatternsDisjoint(modules: seq<Module>) {
    forall i: nat, k: nat, j: nat, l: nat ::
      i < |modules| && k < |modules[i].paths| && j < |modules| && l < |modules[j].paths| && Before(i, k, j, l)
      ==> !Overlap(modules[i].paths[k], modules[j].paths[l])
  }

  lemma DisjointClaims(modules: seq<Module>)
    ensures ClaimsDisjoint(Claims(modules)) <==> PatternsDisjoint(modules)
  {
    hide Overlap;
    var claims := Claims(modules);
    if ClaimsDisjoint(claims) {
      forall i: nat, k: nat, j: nat, l: nat
        | i < |modules| && k < |modules[i].paths| && j < |modules| && l < |modules[j].paths| && Before(i, k, j, l)
        ensures !Overlap(modules[i].paths[k], modules[j].paths[l])
      {
        ClaimStands(modules, i, k);
        ClaimStands(modules, j, l);
        ClaimsAreOrdered(modules, i, k, j, l);
      }
    }
    if PatternsDisjoint(modules) {
      forall a, b | 0 <= a < b < |claims| ensures !Overlap(claims[a].pattern, claims[b].pattern) {
        var i, k := Locate(modules, a);
        var j, l := Locate(modules, b);
        ClaimStands(modules, i, k);
        ClaimStands(modules, j, l);
        if !Before(i, k, j, l) && (i, k) != (j, l) { ClaimsAreOrdered(modules, j, l, i, k); }
      }
    }
  }

  /** In a clean map no valid path has two owners. */
  lemma OwnerIsUnique(d: Document, file: string, i: nat, j: nat)
    requires MapClean(d) && ValidPath(file)
    requires i < |d.modules| && j < |d.modules| && Owns(d.modules[i], file) && Owns(d.modules[j], file)
    ensures i == j
  {
    hide ValidPath, ValidPattern, Overlap, Matches, Claims;
    DisjointClaims(d.modules);
    var p :| p in d.modules[i].paths && Matches(p, file);
    var q :| q in d.modules[j].paths && Matches(q, file);
    var k: nat :| k < |d.modules[i].paths| && d.modules[i].paths[k] == p;
    var l: nat :| l < |d.modules[j].paths| && d.modules[j].paths[l] == q;
    ModuleIsValid(d, i);
    ModuleIsValid(d, j);
    OverlapIsExact(p, q);
    OverlapIsSymmetric(p, q);
    assert i < j ==> Before(i, k, j, l);
    assert j < i ==> Before(j, l, i, k);
  }

  lemma ModuleIsValid(d: Document, i: nat)
    requires MapClean(d) && i < |d.modules|
    ensures ValidModule(d.modules[i]) && forall p :: p in d.modules[i].paths ==> ValidPattern(p)
  {
    assert d.modules[i] in d.modules;
  }

  // ---- Coverage -------------------------------------------------------------------------------------

  const SOURCE_FILES: set<string> := {"desktop/main.js", "desktop/preload.js", "desktop/campus-preload.js",
    "hkustgzconnect"}

  const SOURCE_PREFIXES: set<string> := {
    "desktop/lib/", "desktop/renderer/", "desktop/assets/", "independent/src/", "independent/config/", "tools/mac-cli/"
  }

  const MAX_FILES := 10000

  predicate SourceInScope(file: string) {
    file in SOURCE_FILES || exists prefix :: prefix in SOURCE_PREFIXES && prefix <= file
  }

  function InScope(files: seq<string>): set<string> {
    set f | f in files && SourceInScope(f)
  }

  predicate ValidInventory(files: seq<string>) {
    && |files| <= MAX_FILES
    && (forall f :: f in files ==> ValidPath(f))
    && (forall i, j :: 0 <= i < j < |files| ==> files[i] != files[j])
  }

  /** The modules that own a file, in order. */
  function OwnersOf(modules: seq<Module>, file: string): (r: seq<Module>)
    ensures forall m :: m in r <==> m in modules && Owns(m, file)
  {
    if modules == [] then []
    else
      var before := OwnersOf(modules[..|modules| - 1], file);
      var last := modules[|modules| - 1];
      assert modules == modules[..|modules| - 1] + [last];
      if Owns(last, file) then before + [last] else before
  }

  lemma {:induction false} SingleOwner(modules: seq<Module>, file: string)
    requires forall i, j :: 0 <= i < j < |modules| && Owns(modules[i], file) ==> !Owns(modules[j], file)
    ensures |OwnersOf(modules, file)| <= 1
    decreases |modules|
  {
    if modules != [] {
      hide Owns;
      var last := |modules| - 1;
      SingleOwner(modules[..last], file);
      var before := OwnersOf(modules[..last], file);
      assert before != [] ==> before[0] in before;
      if Owns(modules[last], file) {
        assert forall m :: m in modules[..last] ==> !Owns(m, file);
      }
    }
  }

  lemma CleanMapOwners(d: Document, file: string)
    requires MapClean(d) && ValidPath(file)
    ensures |OwnersOf(d.modules, file)| <= 1
  {
    hide MapClean, Owns, ValidPath;
    forall i: nat, j: nat | i < j < |d.modules| && Owns(d.modules[i], file) ensures !Owns(d.modules[j], file) {
      if Owns(d.modules[j], file) { OwnerIsUnique(d, file, i, j); }
    }
    SingleOwner(d.modules, file);
  }

  ghost predicate EntrypointMissing(m: Module, files: seq<string>, e: Error) {
    e.MissingEntrypoint? && e.id == m.id && e.entry in m.publicEntrypoints && e.entry !in files
  }

  ghost predicate PatternStale(m: Module, files: seq<string>, e: Error) {
    e.StalePath? && e.id == m.id && e.pattern in m.paths && forall f :: f in files ==> !Matches(e.pattern, f)
  }

  /** What the coverage check has to report of a clean map and a valid inventory. */
  ghost predicate CoverageError(modules: seq<Module>, files: seq<string>, e: Error) {
    match e
    case MultipleOwners(f) => f in files && |OwnersOf(modules, f)| > 1
    case UnownedPath(f) => f in InScope(files) && OwnersOf(modules, f) == []
    case NoSources => InScope(files) == {}
    case MissingEntrypoint(_, _) => exists m :: m in modules && EntrypointMissing(m, files, e)
    case StalePath(_, _) => exists m :: m in modules && PatternStale(m, files, e)
    case _ => false
  }

  ghost predicate OwnersAgree(modules: seq<Module>, files: seq<string>, owners: map<string, string>) {
    && owners.Keys == (set f | f in InScope(files) && |OwnersOf(modules, f)| == 1)
    && forall f :: f in owners ==> owners[f] == OwnersOf(modules, f)[0].id
  }

  predicate FileError(e: Error) { e.MultipleOwners? || e.UnownedPath? }

  ghost predicate FilesDone(modules: seq<Module>, files: seq<string>, errors: set<Error>, owners: map<string, string>) {
    && (forall e :: e in errors <==> FileError(e) && CoverageError(modules, files, e))
    && OwnersAgree(modules, files, owners)
  }

  /** Looks up the owners of every file. */
  method AssignOwners(modules: seq<Module>, files: seq<string>)
    returns (errors: set<Error>, sourceCount: nat, owners: map<string, string>)
    requires ValidInventory(files)
    ensures FilesDone(modules, files, errors, owners)
    ensures sourceCount == |InScope(files)|
  {
    hide FilesDone, InScope, SourceInScope, OwnersOf, ValidPath;
    errors, sourceCount, owners := {}, 0, map[];
    NoFilesYet(modules);
    for i := 0 to |files|
      invariant FilesDone(modules, files[..i], errors, owners)
      invariant sourceCount == |InScope(files[..i])|
    {
      var file := files[i];
      assert files[..i + 1] == files[..i] + [file];
      var found := OwnersOf(modules, file);
      OneMoreFile(modules, files[..i], file, errors, owners);
      if |found| > 1 { errors := errors + {MultipleOwners(file)}; }
      if !SourceInScope(file) { continue; }
      sourceCount := sourceCount + 1;
      if found == [] { errors := errors + {UnownedPath(file)}; }
      else if |found| == 1 { owners := owners[file := found[0].id]; }
    }
    assert files[..|files|] == files;
  }

  lemma NoFilesYet(modules: seq<Module>)
    ensures FilesDone(modules, [], {}, map[]) && InScope([]) == {}
  {
  }

  lemma ScopeGrows(files: seq<string>, file: string)
    requires file !in files
    ensures InScope(files + [file]) == InScope(files) + (if SourceInScope(file) then {file} else {})
    ensures file !in InScope(files)
  {
    hide SourceInScope;
    var all := files + [file];
    assert forall f :: f in all <==> f in files || f == file;
  }

  lemma ErrorsGrow(modules: seq<Module>, files: seq<string>, file: string, e: Error)
    requires FileError(e)
    ensures CoverageError(modules, files + [file], e) <==>
      (CoverageError(modules, files, e) ||
       (e == MultipleOwners(file) && |OwnersOf(modules, file)| > 1) ||
       (e == UnownedPath(file) && SourceInScope(file) && OwnersOf(modules, file) == []))
  {
    hide SourceInScope, OwnersOf, Owns, Matches;
    var all := files + [file];
    assert forall f :: f in all <==> f in files || f == file;
  }

  lemma OwnersGrow(modules: seq<Module>, files: seq<string>, file: string, owners: map<string, string>)
    requires OwnersAgree(modules, files, owners) && file !in files
    ensures
      var found := OwnersOf(modules, file);
      OwnersAgree(modules, files + [file],
                  if SourceInScope(file) && |found| == 1 then owners[file := found[0].id] else owners)
  {
    hide SourceInScope, OwnersOf, InScope;
    ScopeGrows(files, file);
  }

  lemma OneMoreFile(modules: seq<Module>, files: seq<string>, file: string, errors: set<Error>,
                    owners: map<string, string>)
    requires FilesDone(modules, files, errors, owners) && file !in files
    ensures InScope(files + [file]) == InScope(files) + (if SourceInScope(file) then {file} else {})
    ensures file !in InScope(files)
    ensures
      var found := OwnersOf(modules, file);
      var several := if |found| > 1 then errors + {MultipleOwners(file)} else errors;
      var none := if SourceInScope(file) && found == [] then several + {UnownedPath(file)} else several;
      FilesDone(modules, files + [file], none, if SourceInScope(file) && |found| == 1 then owners[file := found[0].id]
                else owners)
  {
    hide SourceInScope, OwnersOf, CoverageError, OwnersAgree, InScope;
    ScopeGrows(files, file);
    OwnersGrow(modules, files, file, owners);
    forall e | FileError(e)
      ensures CoverageError(modules, files + [file], e) <==>
        (CoverageError(modules, files, e) ||
         (e == MultipleOwners(file) && |OwnersOf(modules, file)| > 1) ||
         (e == UnownedPath(file) && SourceInScope(file) && OwnersOf(modules, file) == []))
    {
      ErrorsGrow(modules, files, file, e);
    }
  }

  /** Looks for entrypoints without a file and patterns without a match. */
  method CheckUse(modules: seq<Module>, files: seq<string>) returns (errors: set<Error>)
    ensures forall e :: e in errors <==> (e.MissingEntrypoint? || e.StalePath?) && CoverageError(modules, files, e)
  {
    hide Matches;
    errors := {};
    for i := 0 to |modules|
      invariant forall e :: e in errors <==>
        exists m :: m in modules[..i] && (EntrypointMissing(m, files, e) || PatternStale(m, files, e))
    {
      var m := modules[i];
      assert modules[..i + 1] == modules[..i] + [m];
      var missing := set x | x in m.publicEntrypoints && x !in files :: MissingEntrypoint(m.id, x);
      var stale := set p | p in m.paths && (forall f :: f in files ==> !Matches(p, f)) :: StalePath(m.id, p);
      assert forall e :: e in missing <==> EntrypointMissing(m, files, e);
      assert forall e :: e in stale <==> PatternStale(m, files, e);
      errors := errors + missing + stale;
    }
    assert modules[..|modules|] == modules;
  }

  /** Gives every file in scope its owner. Without errors, every file in scope has exactly one, and
      no file is ever reported to have several. */
  method ModuleCoverage(d: Document, files: seq<string>)
    returns (errors: set<Error>, sourceCount: nat, owners: map<string, string>)
    ensures !MapClean(d) ==> Reports(errors, d) && errors != {} && sourceCount == 0 && owners == map[]
    ensures MapClean(d) && !ValidInventory(files) ==>
      errors == {InvalidInventory} && sourceCount == 0 && owners == map[]
    ensures MapClean(d) && ValidInventory(files) ==>
      (forall e :: e in errors <==> CoverageError(d.modules, files, e)) && sourceCount == |InScope(files)|
    ensures MapClean(d) ==> forall e :: e in errors ==> !e.MultipleOwners?
    ensures MapClean(d) && ValidInventory(files) ==> OwnersAgree(d.modules, files, owners)
    ensures errors == {} ==> owners.Keys == InScope(files) && owners.Keys != {}
    ensures errors == {} ==> forall f, m :: f in owners && m in d.modules ==> (Owns(m, f) <==> m.id == owners[f])
  {
    hide MapClean, Reports, ValidInventory, OwnersOf, Owns, InScope;
    errors := SchemaErrors(d);
    sourceCount, owners := 0, map[];
    if errors != {} { return; }
    if !ValidInventory(files) { return {InvalidInventory}, 0, map[]; }
    errors, sourceCount, owners := AssignOwners(d.modules, files);
    if sourceCount == 0 { errors := errors + {NoSources}; }
    var unused := CheckUse(d.modules, files);
    ghost var perFile := errors;
    errors := errors + unused;
    NeverMultiple(d, files);
    if errors == {} { OwnersAreTotal(d, files, owners); }
  }

  lemma NeverMultiple(d: Document, files: seq<string>)
    requires MapClean(d) && ValidInventory(files)
    ensures forall f :: !CoverageError(d.modules, files, MultipleOwners(f))
  {
    hide MapClean, ValidPath, OwnersOf;
    forall f | f in files ensures |OwnersOf(d.modules, f)| <= 1 { CleanMapOwners(d, f); }
  }

  lemma OwnersAreTotal(d: Document, files: seq<string>, owners: map<string, string>)
    requires MapClean(d) && ValidInventory(files) && OwnersAgree(d.modules, files, owners)
    requires forall f :: !CoverageError(d.modules, files, UnownedPath(f))
    ensures owners.Keys == InScope(files)
    ensures forall f, m :: f in owners && m in d.modules ==> (Owns(m, f) <==> m.id == owners[f])
  {
    hide MapClean, ValidPath, Owns, SourceInScope;
    forall f | f in InScope(files) ensures |OwnersOf(d.modules, f)| == 1 {
      CleanMapOwners(d, f);
      assert !CoverageError(d.modules, files, UnownedPath(f));
    }
    forall f, m | f in owners && m in d.modules ensures Owns(m, f) <==> m.id == owners[f] {
      var found := OwnersOf(d.modules, f);
      assert found[0] in found;
      if m.id == found[0].id { SameId(d, m, found[0]); }
      if Owns(m, f) {
        assert m in found;
      }
    }
  }

  lemma SameId(d: Document, a: Module, b: Module)
    requires MapClean(d) && a in d.modules && b in d.modules && a.id == b.id
    ensures a == b
  {
    hide ValidModule, EntrypointsOwned, ClaimsDisjoint, Claims, Ids;
    var i :| 0 <= i < |d.modules| && d.modules[i] == a;
    var j :| 0 <= j < |d.modules| && d.modules[j] == b;
    assert i == j;
  }

  // ---- Imports between modules ----------------------------------------------------------------------

  datatype Edge = Edge(from: string, to: string)

  datatype Violation = Violation(edge: Edge, undeclared: bool, privateTarget: bool)

  /** The first module that owns the file. */
  function OwnerFor(modules: seq<Module>, file: string): (o: Option<Module>)
    ensures o.Some? ==> o.value in modules && Owns(o.value, file)
    ensures o.None? ==> forall m :: m in modules ==> !Owns(m, file)
  {
    if modules == [] then None
    else if Owns(modules[0], file) then Some(modules[0])
    else OwnerFor(modules[1..], file)
  }

  predicate ValidImports(imports: seq<Edge>) {
    |imports| <= MAX_FILES && forall e :: e in imports ==> ValidPath(e.from) && ValidPath(e.to)
  }

  /** `v` describes an import from one module into another that the map does not allow, whatever the
      order of the modules. */
  ghost predicate Violates(modules: seq<Module>, v: Violation) {
    exists s, t :: s in modules && t in modules && CrossesBadly(s, t, v)
  }

  predicate CrossesBadly(s: Module, t: Module, v: Violation) {
    && Owns(s, v.edge.from) && Owns(t, v.edge.to) && s.id != t.id
    && v.undeclared == (t.id !in s.allowedDependencies)
    && v.privateTarget == (v.edge.to !in t.publicEntrypoints)
    && (v.undeclared || v.privateTarget)
  }

  ghost predicate ImportError(modules: seq<Module>, edge: Edge, e: Error) {
    || (e == UnownedSource(edge.from) && forall m :: m in modules ==> !Owns(m, edge.from))
    || (e == UnownedTarget(edge.to) && forall m :: m in modules ==> !Owns(m, edge.to))
  }

  ghost predicate SomeImportError(modules: seq<Module>, imports: seq<Edge>, e: Error) {
    exists edge :: edge in imports && ImportError(modules, edge, e)
  }

  lemma NoImportYet(modules: seq<Module>)
    ensures forall e :: !SomeImportError(modules, [], e)
  {
  }

  lemma OneMoreImport(modules: seq<Module>, imports: seq<Edge>, edge: Edge, e: Error)
    ensures SomeImportError(modules, imports + [edge], e) <==>
      SomeImportError(modules, imports, e) || ImportError(modules, edge, e)
  {
    hide ImportError;
    assert forall x: Edge :: x in imports + [edge] <==> x in imports || x == edge;
  }

  /** The first owner decides, and in a clean map the first is the only one. */
  lemma FirstOwnerDecides(d: Document, v: Violation)
    requires MapClean(d) && ValidPath(v.edge.from) && ValidPath(v.edge.to)
    ensures Violates(d.modules, v) <==>
      OwnerFor(d.modules, v.edge.from).Some? && OwnerFor(d.modules, v.edge.to).Some? &&
      CrossesBadly(OwnerFor(d.modules, v.edge.from).value, OwnerFor(d.modules, v.edge.to).value, v)
  {
    hide MapClean, ValidPath, Owns;
    if Violates(d.modules, v) {
      var s, t :| s in d.modules && t in d.modules && CrossesBadly(s, t, v);
      OwnerIsFirst(d, v.edge.from, s);
      OwnerIsFirst(d, v.edge.to, t);
    }
  }

  lemma OwnerIsFirst(d: Document, file: string, m: Module)
    requires MapClean(d) && ValidPath(file) && m in d.modules && Owns(m, file)
    ensures OwnerFor(d.modules, file) == Some(m)
  {
    hide MapClean, ValidPath, Owns;
    var o := OwnerFor(d.modules, file).value;
    var i: nat :| i < |d.modules| && d.modules[i] == m;
    var j: nat :| j < |d.modules| && d.modules[j] == o;
    OwnerIsUnique(d, file, i, j);
  }

  /** Reports every import that crosses modules without a declared dependency or past the public
      entrypoints. */
  method ModuleImportViolations(d: Document, imports: seq<Edge>)
    returns (errors: set<Error>, violations: set<Violation>)
    ensures !MapClean(d) ==> Reports(errors, d) && errors != {} && violations == {}
    ensures MapClean(d) && !ValidImports(imports) ==> errors == {InvalidImports} && violations == {}
    ensures MapClean(d) && ValidImports(imports) ==> forall e :: e in errors <==> SomeImportError(d.modules, imports, e)
    ensures MapClean(d) && ValidImports(imports) ==> forall v :: v in violations <==>
      v.edge in imports && Violates(d.modules, v)
  {
    hide MapClean, Reports, ValidPath, Owns, Violates, OwnerFor, SomeImportError;
    errors := SchemaErrors(d);
    violations := {};
    if errors != {} { return; }
    NoImportYet(d.modules);
    if !ValidImports(imports) { return {InvalidImports}, {}; }
    for i := 0 to |imports|
      invariant forall e :: e in errors <==> SomeImportError(d.modules, imports[..i], e)
      invariant forall v :: v in violations <==> v.edge in imports[..i] && Violates(d.modules, v)
    {
      var edge := imports[i];
      assert imports[..i + 1] == imports[..i] + [edge];
      assert edge in imports && forall x: Edge :: x in imports[..i + 1] <==> x in imports[..i] || x == edge;
      var s := OwnerFor(d.modules, edge.from);
      var t := OwnerFor(d.modules, edge.to);
      forall v: Violation | v.edge == edge
        ensures Violates(d.modules, v) <==> s.Some? && t.Some? && CrossesBadly(s.value, t.value, v)
      {
        FirstOwnerDecides(d, v);
      }
      assert forall e :: ImportError(d.modules, edge, e) <==>
        (e == UnownedSource(edge.from) && s.None?) || (e == UnownedTarget(edge.to) && t.None?);
      forall e { OneMoreImport(d.modules, imports[..i], edge, e); }
      if s.None? { errors := errors + {UnownedSource(edge.from)}; }
      if t.None? { errors := errors + {UnownedTarget(edge.to)}; }
      if s.None? || t.None? || s.value.id == t.value.id {
        assert forall w: Violation :: w.edge == edge ==> !Violates(d.modules, w);
        continue;
      }
      var v := Violation(edge, t.value.id !in s.value.allowedDependencies, edge.to !in t.value.publicEntrypoints);
      assert forall w: Violation :: w.edge == edge ==>
        (Violates(d.modules, w) <==> w == v && (v.undeclared || v.privateTarget));
      if v.undeclared || v.privateTarget { violations := violations + {v}; }
    }
    assert imports[..|imports|] == imports;
  }

  // ---- The order of the modules ---------------------------------------------------------------------

  lemma {:induction false} NoTwins(a: seq<Module>, i: nat, j: nat)
    requires i < j < |a| && a[i] == a[j]
    ensures multiset(a)[a[i]] >= 2
  {
    assert a == a[..j] + a[j..];
    assert a[i] in a[..j] && a[j] in a[j..];
  }

  lemma {:induction false} TwinsFound(a: seq<Module>, m: Module)
    requires multiset(a)[m] >= 2
    ensures exists i, j :: 0 <= i < j < |a| && a[i] == m && a[j] == m
    decreases |a|
  {
    var front, last := a[..|a| - 1], a[|a| - 1];
    assert a == front + [last];
    if multiset(front)[m] >= 2 {
      TwinsFound(front, m);
      var i, j :| 0 <= i < j < |front| && front[i] == m && front[j] == m;
      assert a[i] == m && a[j] == m;
    } else {
      assert last == m && m in front;
      var i :| 0 <= i < |front| && front[i] == m;
      assert a[i] == m && a[|front|] == m;
    }
  }

  /** Different places in a permutation hold modules from different places. */
  lemma PlacesDiffer(a: seq<Module>, b: seq<Module>, i: nat, j: nat) returns (x: nat, y: nat)
    requires multiset(a) == multiset(b) && i < j < |b|
    ensures x < |a| && y < |a| && x != y && a[x] == b[i] && a[y] == b[j]
  {
    assert b[i] in multiset(a) && b[j] in multiset(a);
    if b[i] == b[j] {
      NoTwins(b, i, j);
      TwinsFound(a, b[i]);
      x, y :| 0 <= x < y < |a| && a[x] == b[i] && a[y] == b[i];
    } else {
      x :| 0 <= x < |a| && a[x] == b[i];
      y :| 0 <= y < |a| && a[y] == b[j];
    }
  }

  lemma PermutedIsClean(d: Document, p: Document)
    requires MapClean(d) && p.headerValid && multiset(d.modules) == multiset(p.modules)
    ensures MapClean(p)
  {
    hide ValidModule, EntrypointsOwned, Overlap, Claims;
    var a, b := d.modules, p.modules;
    SameMembers(a, b);
    assert |a| == |multiset(a)| == |multiset(b)| == |b|;
    forall i: nat, j: nat | i < j < |b| ensures b[i].id != b[j].id {
      var x, y := PlacesDiffer(a, b, i, j);
    }
    DisjointClaims(a);
    DisjointClaims(b);
    forall i: nat, k: nat, j: nat, l: nat
      | i < |b| && k < |b[i].paths| && j < |b| && l < |b[j].paths| && Before(i, k, j, l)
      ensures !Overlap(b[i].paths[k], b[j].paths[l])
    {
      if i == j {
        assert b[i] in a;
        var x: nat :| x < |a| && a[x] == b[i];
        assert Before(x, k, x, l);
      } else {
        var x, y := PlacesDiffer(a, b, i, j);
        OverlapIsSymmetric(b[i].paths[k], b[j].paths[l]);
        assert Before(x, k, y, l) || Before(y, l, x, k);
      }
    }
  }

  lemma SameMembers(a: seq<Module>, b: seq<Module>)
    requires multiset(a) == multiset(b)
    ensures forall m :: m in a <==> m in b
    ensures Ids(a) == Ids(b)
  {
    forall m ensures m in a <==> m in b {
      assert m in a <==> m in multiset(a);
      assert m in b <==> m in multiset(b);
    }
  }

  /** The imports reported do not depend on the order of the modules, although the first owner is taken. */
  lemma OrderIsIrrelevant(d: Document, p: Document)
    requires p.headerValid == d.headerValid && multiset(d.modules) == multiset(p.modules)
    ensures MapClean(d) <==> MapClean(p)
    ensures forall v :: Violates(d.modules, v) <==> Violates(p.modules, v)
    ensures forall edge, e :: ImportError(d.modules, edge, e) <==> ImportError(p.modules, edge, e)
    ensures forall files, e :: MapClean(d) && ValidInventory(files) ==>
      (CoverageError(d.modules, files, e) <==> CoverageError(p.modules, files, e))
  {
    hide MapClean, CrossesBadly, Owns, EntrypointMissing, PatternStale, InScope, ValidInventory;
    SameMembers(d.modules, p.modules);
    if MapClean(d) { HeaderIsValid(d); PermutedIsClean(d, p); }
    if MapClean(p) { HeaderIsValid(p); PermutedIsClean(p, d); }
    forall files, e | MapClean(d) && ValidInventory(files)
      ensures CoverageError(d.modules, files, e) <==> CoverageError(p.modules, files, e)
    {
      NeverMultiple(d, files);
      NeverMultiple(p, files);
      if e.UnownedPath? { SameOwnerless(d.modules, p.modules, e.file); }
    }
  }

  /** A clean map is needed for that: of two valid modules that overlap, the report names the earlier first. */
  lemma OverlapTellsTheOrder(d: Document, p: Document, a: Module, b: Module, k: nat, l: nat)
    requires d == Document(true, [a, b]) && p == Document(true, [b, a])
    requires ValidModule(a) && ValidModule(b) && a.id != b.id
    requires k < |a.paths| && l < |b.paths| && Overlap(a.paths[k], b.paths[l])
    ensures var e := OverlappingPaths(Claim(a.paths[k], a.id), Claim(b.paths[l], b.id));
      SchemaError(d, e) && !SchemaError(p, e)
  {
    hide ValidModule, Overlap;
    var e := OverlappingPaths(Claim(a.paths[k], a.id), Claim(b.paths[l], b.id));
    ClaimStands(d.modules, 0, k);
    ClaimStands(d.modules, 1, l);
    ClaimsAreOrdered(d.modules, 0, k, 1, l);
    assert OverlapAt(Claims(d.modules), Position(d.modules, 0, k), Position(d.modules, 1, l), e);
    var claims := Claims(p.modules);
    forall i: nat, j: nat | i < j < |claims| ensures !OverlapAt(claims, i, j, e) {
      var x, y := Locate(p.modules, i);
      var z, w := Locate(p.modules, j);
      ClaimStands(p.modules, x, y);
      ClaimStands(p.modules, z, w);
      if z < x { ClaimsAreOrdered(p.modules, z, w, x, y); }
    }
  }

  lemma HeaderIsValid(d: Document)
    requires MapClean(d)
    ensures d.headerValid
  {
  }

  lemma SameOwnerless(a: seq<Module>, b: seq<Module>, file: string)
    requires forall m :: m in a <==> m in b
    ensures OwnersOf(a, file) == [] <==> OwnersOf(b, file) == []
  {
    var x, y := OwnersOf(a, file), OwnersOf(b, file);
    if x != [] { assert x[0] in y; }
    if y != [] { assert y[0] in x; }
  }
}
