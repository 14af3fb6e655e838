# Verified models of the desktop safety gates

The desktop application guards its source tree with static gates and its sign-in flow with
small state machines. This project models their logic and proves what their single checks mean:
for every program, every path of imports, every file, every run of events.

**The renderer alias analysis** (`desktop/scripts/renderer-source-analysis.js`). A file is a table of
syntax nodes (`Syntax`). `RendererAnalysis` is the analysis itself: a class with the scopes, binding
sets, flow list, call registry and evaluation guard, and methods that walk the file, evaluate
expressions under the guard and run the rounds. `AbstractValues` says what evaluation computes,
`Collection` what the walk collects, `FlowEquations` what it means to be closed under all flows.
`ScopeLaws` and `ValueLaws` read scopes, declarations, flows and one step of evaluation off the tree
itself, and `Report` does the same for what is exported and complained about.

- Every normal end is a closed state, computed keys included, and the rounds would end without the cap of 64.
- With static keys that state is the least closed state, so no visiting order matters, and it is
  below every solution of the equations without the guard; with flat property values it is the least of them.
- Every file has a final state, whatever steps are taken in whatever order.
- `RunSemantics` says what a run of a module does. Host code acts before the module body, after any node, and later: it
  calls functions of the module, changes any object, and provides the imports. Exceptions may end a run anywhere.
- In the fragment of `Soundness.InFragment` and without problems, every name the module writes on the browser global in any
  such run is exported, if the host hands it only primitives (`AnalysisIsSound`).
- If the final state shows that the module keeps the global in variables (`Confined`: the global is no property, no
  result, no argument, and nothing that is stored), the host may hand it anything but the global (`ConfinedIsSound`).

Soundness is false of the code without conditions. For each condition there is a file that breaks it, meets the other
conditions, and writes the name `leak` on the global, while the analysis exports nothing and reports no problem.

| condition | checked on | files that break it |
|---|---|---|
| a declared function is not assigned or declared again (`StableDeclarations`) | the source | `ReassignedDeclaration` |
| no `var` has the name of something declared in the body block of its function (`SeparateVars`) | the source | `SharedVariable` |
| parameters do not name a `var` of the body (`NamesAreSeen`) | the source | `HiddenVariable` |
| only primitives are handed to the functions of the module (`Tame`), or the module is `Confined` | the run, or the final state | `ForwardedObject` |
| host functions and imports give only primitives (`Tame`), or the module is `Confined` | the run, or the final state | `ReturnedObject` |
| only primitives are read from where the module or the host stored them, own objects, their prototypes, host objects and the global included (`Tame`), or the module is `Confined` | the run, or the final state | `StoredObject`, `ChangedObject` |
| the host hands out no other way to the global (`Tame` or `Reserved`) | the run | `AliasedGlobal` |

**The import-graph gates** (`check-architecture.js`, `renderer-boundaries.js`, `module-map-coverage.js` in `desktop/scripts`).
`CycleSearch`, `RendererCycles` and `TransitiveDependencies` are the three graph searches over one
`ImportGraph`. `LayerRules` and `RendererGate` check single imports, and the lemmas say what a silent
gate means for every path. `ModuleMap` decides pattern overlap exactly, so that owners are unique and
the order of the modules cannot matter. `LayerLaws`, `GateLaws` and `MapLaws` write all rules of these
gates out over the files, the registry and the map alone: what is valid, and what each error is reported for.
`CommaItems` is the quote- and bracket-aware splitter.

**The stateful cores.** `CredentialPage` and `SpaMonitor` (`desktop/campus-preload.js`) are the page classifier and
the monitor for sign-ins inside one document; `RoutingPartitions` and `RoutingPreview`
(`desktop/renderer/routing-manager.js`) the column arithmetic and the revision-guarded preview;
`Bookmarks` (`desktop/renderer/campus-browser.js`) the normaliser that is applied to its own output, with
`BookmarkLaws` on what it reads from an entry. `Trimming` is the white-space rule they share.

Other promises that need a condition: the domain table binds only paths that import on from no file
in the root of `lib` (`LegacyEscapes`), and the wording of overlap errors follows the order of the
modules of a map that is not clean (`OverlapTellsTheOrder`); everything else does not.

## Model

| member | source | states |
|---|---|---|
| RendererAnalysis.Analysis.BindPattern | desktop/scripts/renderer-source-analysis.js:55-72 | a pattern declares exactly its names and registers exactly its flows, a default value being a second source |
| FlowEquations.PatternTargets | desktop/scripts/renderer-source-analysis.js:55-72 | what a pattern declares does not depend on what it is bound to, and every flow it registers targets a declared name |
| ScopeLaws.PatternDeclares | desktop/scripts/renderer-source-analysis.js:55-72 | a pattern declares exactly the names that stand in it: in its entries without computed keys, its elements, its rest and before its default values |
| ScopeLaws.PatternLetsFlow | desktop/scripts/renderer-source-analysis.js:55-72 | and registers exactly a flow into each of them from what feeds it: the bound value along the keys and indices on the way, or a default value |
| ScopeLaws.NamesAre | desktop/scripts/renderer-source-analysis.js:73-101 | declared are exactly functions around and inside themselves, parameters, catch parameters, variables, classes and imports, each in its scope |
| ScopeLaws.DeclaredAre | desktop/scripts/renderer-source-analysis.js:76-78 | a binding holds a function from the start exactly inside the function under its own name, and around it if it is a declaration |
| ScopeLaws.FlowsAre | desktop/scripts/renderer-source-analysis.js:73-99 | flows start exactly at parameters, catch parameters and declarators, from what these are given by themselves |
| ScopeLaws.ReturnsAre | desktop/scripts/renderer-source-analysis.js:82-102 | a function gives exactly what its own `return` statements give, or the body of a concise arrow |
| ScopeLaws.ParameterFlowsAre | desktop/scripts/renderer-source-analysis.js:190-193 | a found call lets exactly each argument flow into the pattern at its place |
| ScopeLaws.ScopeIsNearest | desktop/scripts/renderer-source-analysis.js:73-94 | the scope of a node is the nearest program, function or block from it upwards |
| ScopeLaws.VarScopeIsNearest | desktop/scripts/renderer-source-analysis.js:95-99 | a `var` declares in the nearest function or the program |
| ScopeLaws.OwnerIsNearestFunction | desktop/scripts/renderer-source-analysis.js:73-102 | a `return` belongs to the nearest function, if there is one |
| ScopeLaws.LookupIsNearest | desktop/scripts/renderer-source-analysis.js:43-48 | a lookup gives the declaration in the nearest scope above that has one, and nothing exactly if no scope above has one |
| RendererAnalysis.Analysis.Visit | desktop/scripts/renderer-source-analysis.js:73-106 | the walk adds to every table exactly what the nodes of the subtree contribute, each under its own scope and owner |
| RendererAnalysis.Analysis.Walk | desktop/scripts/renderer-source-analysis.js:73-107 | after the walk of the whole file the invariant of the rounds holds |
| Collection.WholeFile | desktop/scripts/renderer-source-analysis.js:73-107 | the subtree of the root is the whole file, so what the walk collects of it, names, flows, returns and calls, is that of the file |
| Fixpoint.InitialState | desktop/scripts/renderer-source-analysis.js:73-107 | the first state holds the declared functions and, with static keys, nothing that some closed state lacks |
| RendererAnalysis.Analysis.LookupName | desktop/scripts/renderer-source-analysis.js:43-48 | the climb through the scopes finds the innermost declaration of the name |
| RendererAnalysis.Analysis.Evaluate | desktop/scripts/renderer-source-analysis.js:134-140 | evaluation ends on cyclic object graphs, gives the guarded value, and leaves the guard as it found it |
| RendererAnalysis.Analysis.ExpressionValues | desktop/scripts/renderer-source-analysis.js:141-170 | every kind of expression is evaluated as its equation says, under the current guard |
| RendererAnalysis.Analysis.MemberValues | desktop/scripts/renderer-source-analysis.js:109-128 | a member access collects what each object holds under the key: global aliases, builtins, properties, getters, elements |
| RendererAnalysis.Analysis.KeyFor | desktop/scripts/renderer-source-analysis.js:129-133 | a computed key counts only if exactly one string is known for it |
| ValueLaws.KeyIsUsed | desktop/scripts/renderer-source-analysis.js:129-133 | a member uses the written name or literal, or under a computed key the only text known, and otherwise no key |
| ValueLaws.MembersAre | desktop/scripts/renderer-source-analysis.js:109-128 | what each kind of object gives under a key: the global its three own names and two code builtins, `Object` and `Reflect` their members, literals what stands in them |
| ValueLaws.PathLeads | desktop/scripts/renderer-source-analysis.js:109-128 | following a path finds exactly what a chain of such members leads to |
| ValueLaws.StepFinds | desktop/scripts/renderer-source-analysis.js:135-170 | one step of evaluation finds exactly what the kind of the node says, in terms of nodes above it, scopes and stored values |
| ValueLaws.IndexIsDecimal | desktop/scripts/renderer-source-analysis.js:70 | an index is written in decimal without leading zeros, and read back as itself |
| ValueLaws.DecimalIsIndex | desktop/scripts/renderer-source-analysis.js:123-125 | every such text is the text of its own value |
| GuardedEvaluation.GuardedIsDerived | desktop/scripts/renderer-source-analysis.js:109-170 | with static keys every value the guarded evaluation gives has a finite derivation in the unguarded equations |
| GuardedEvaluation.GuardedMonotone | desktop/scripts/renderer-source-analysis.js:109-170 | with static keys, knowing more never makes an expression evaluate to less |
| GuardedEvaluation.GuardNeverCuts | desktop/scripts/renderer-source-analysis.js:134-140 | if property values look into no object, the guard loses no derivation |
| GuardedEvaluation.EvaluateEquation | desktop/scripts/renderer-source-analysis.js:134-170 | then guarded evaluation meets its own unguarded equation exactly |
| FlowEquations.SolutionIsClosed | desktop/scripts/renderer-source-analysis.js:134-204 | every solution of the unguarded equations is closed under guarded evaluation |
| FlowEquations.ClosedIsSolution | desktop/scripts/renderer-source-analysis.js:134-204 | with flat property values a closed state solves the unguarded equations |
| FlowEquations.LeastClosedAndSolutions | desktop/scripts/renderer-source-analysis.js:134-204 | the least closed state is below every solution, and the least solution when property values are flat |
| FlowEquations.CallRespected | desktop/scripts/renderer-source-analysis.js:185-199 | the parameter flows of a call the analysis finds are met by every closed state |
| FlowEquations.LeastIsUnique | desktop/scripts/renderer-source-analysis.js:171-204 | two least closed states of a file are the same |
| FlowEquations.StepInUniverse | desktop/scripts/renderer-source-analysis.js:109-170 | values never leave a finite universe: builtins nest at most one key deep |
| FlowEquations.PatternPaths | desktop/scripts/renderer-source-analysis.js:55-72 | destructuring uses only keys of that universe |
| Fixpoint.FactsInUniverse | desktop/scripts/renderer-source-analysis.js:171-204 | the bound of the rounds: all facts and registrations a run of the analysis can hold lie in one finite set given by the file |
| RendererAnalysis.Analysis.FlowPhase | desktop/scripts/renderer-source-analysis.js:174-178 | the pass keeps the invariant, reports a change exactly when a fact is new, and without one every listed flow is met |
| RendererAnalysis.Analysis.AssignmentPhase | desktop/scripts/renderer-source-analysis.js:179-184 | likewise for assignments to declared names |
| RendererAnalysis.Analysis.CallPhase | desktop/scripts/renderer-source-analysis.js:185-199 | likewise for calls: without a change every call has every function it is found to call registered |
| RendererAnalysis.Analysis.ReturnPhase | desktop/scripts/renderer-source-analysis.js:200-202 | likewise for the results of functions |
| RendererAnalysis.Analysis.Round | desktop/scripts/renderer-source-analysis.js:172-203 | a round that changes anything adds a fact; one that changes nothing leaves a closed state |
| RendererAnalysis.Analysis.Solve | desktop/scripts/renderer-source-analysis.js:171-204 | a normal end is closed and fully registered; the measure is the set of unknown facts, so the loop ends without the cap; giving up takes at least 64 possible facts |
| RendererAnalysis.Analysis.InspectWrite | desktop/scripts/renderer-source-analysis.js:223-233 | a write target publishes exactly the keys it may set on the browser global, and complains about each that is no plain name |
| RendererAnalysis.Analysis.Inspect | desktop/scripts/renderer-source-analysis.js:254-263 | the report is exactly the published names and the problems of the final state |
| Report.MemberWriteIsPublished | desktop/scripts/renderer-source-analysis.js:211-224 | an assignment to a named member of the global exports the name without a complaint exactly if it is made of ASCII letters, digits, `_` and `$` and starts with no digit |
| Report.NameWriteIsPublished | desktop/scripts/renderer-source-analysis.js:211-225 | the same for an assignment to a name that is declared nowhere above |
| Report.ExportsAre | desktop/scripts/renderer-source-analysis.js:211-299 | exported is exactly every such name that some write may set, and with its mark every top-level name of a classic script |
| Report.ProblemsAre | desktop/scripts/renderer-source-analysis.js:211-261 | complained about is exactly every write that may set another key, and every assignment that puts the global into a member of something else |
| RendererSource.FinalIsLeast | desktop/scripts/renderer-source-analysis.js:171-204 | with static keys the final state is the least closed state, is unique, and is below every solution of the unguarded equations |
| RendererSource.FinalExists | desktop/scripts/renderer-source-analysis.js:171-204 | every file has a final state, reached by any steps in any order |
| RendererSource.AnalysisIsSound | desktop/scripts/renderer-source-analysis.js:135-233 | in the fragment, without problems, every name is exported that the module writes on the browser global in any run with a tame host, in its body and in whatever the host calls before, during or after it |
| RendererSource.ConfinedIsSound | desktop/scripts/renderer-source-analysis.js:135-262 | if the final state shows the global in no property, result or argument and stored nowhere, the same holds for every host that does not hand out the global, whatever else it returns, passes, provides or stores |
| RendererSource.AnalyzeRendererSource | desktop/scripts/renderer-source-analysis.js:29-306 | the answer is that of a final state, the same for all of them with static keys, and covers every run of a module in the fragment with a tame host, and with a reserved one if the module is confined |
| RunInduction.RunSound | desktop/scripts/renderer-source-analysis.js:141-204 | whatever a node evaluates to in a run is among the values the analysis gives it, whatever a careful host does in between, and the machine stays covered |
| RunInduction.ApplySound | desktop/scripts/renderer-source-analysis.js:185-202 | a call binds its arguments within the parameters' values and returns within the results found |
| RunInduction.InvokeSound | desktop/scripts/renderer-source-analysis.js:73-106 | calling any function with arguments its parameters are known to receive, or with harmless ones, keeps everything covered and returns within its results |
| RunInduction.ActsSound | desktop/scripts/renderer-source-analysis.js:73-106 | any sequence of calls, stores and provided imports by host code that hands over nothing harmful keeps everything covered |
| RunInduction.BindSound | desktop/scripts/renderer-source-analysis.js:55-72 | matching a value against a pattern stores only values the registered flows allow |
| RunInduction.RunsAreCovered | desktop/scripts/renderer-source-analysis.js:206-233 | all names the module writes on the global in a run of the whole page are exported, for both kinds of hosts |
| ReassignedDeclaration.ReassignmentEscapes | desktop/scripts/renderer-source-analysis.js:76-78 | a reassigned declaration: all other conditions hold, nothing is exported or complained about, yet every undisturbed run writes `leak` |
| SharedVariable.SharedVariableEscapes | desktop/scripts/renderer-source-analysis.js:76-97 | a `var` and a function of one body with one name: the same |
| HiddenVariable.HiddenVariableEscapes | desktop/scripts/renderer-source-analysis.js:77-97 | a default value that names a `var` of the body: the same for every run that takes the default |
| ForwardedObject.ForwardedObjectEscapes | desktop/scripts/renderer-source-analysis.js:185-199 | a file in the fragment whose function the host calls with an object that holds the global: the same; the host is reserved and the file not confined |
| ReturnedObject.ReturnedObjectEscapes | desktop/scripts/renderer-source-analysis.js:109-128 | a file in the fragment that is given its object back by a host function: the same |
| StoredObject.StoredObjectEscapes | desktop/scripts/renderer-source-analysis.js:257-261 | a file in the fragment that reads its object back from a host object: the same |
| ChangedObject.ChangedObjectEscapes | desktop/scripts/renderer-source-analysis.js:271-293 | a file in the fragment whose object is given the global by `Reflect.set`, a call that is not complained about: every run in which the property is read back writes `leak`, and the file is not confined |
| AliasedGlobal.AliasedGlobalEscapes | desktop/scripts/renderer-source-analysis.js:109-128 | a file in the fragment that writes on the global under another name: the same |
| CycleSearch.FindCycles | desktop/scripts/check-architecture.js:174-204 | empty exactly on acyclic graphs; every report is a closed walk through distinct files; no two have the same files; every component with a cycle has a report inside it; and for a finishing order, every import of a file that does not come earlier in it closes a walk whose files are exactly those of a report, and every report ends with such an import |
| CycleSearch.Search.Visit | desktop/scripts/check-architecture.js:180-198 | a visit finishes its file, restores the stack, and only adds reports |
| CycleSearch.Search.Report | desktop/scripts/check-architecture.js:186-194 | closing a walk leaves some report with exactly the files of the stack from the imported file upwards, and changes the reports at most by adding that walk |
| CycleSearch.ComponentReported | desktop/scripts/check-architecture.js:174-204 | if every import either goes to a file finished earlier or lies on a report, each file on a cycle has a report within its component |
| CycleSearch.EmptyIffAcyclic | desktop/scripts/check-architecture.js:174-204 | no report means no cycle, and then finishing order is topological |
| TransitiveDependencies.TransitiveDependencies | desktop/scripts/check-architecture.js:212-223 | exactly the files reached by at least one import, the start among them exactly if it lies on a cycle |
| RendererCycles.CycleErrors | desktop/scripts/renderer-boundaries.js:143-153 | reports only files on cycles, some file exactly if there is a cycle; for the order in which the files are finished, exactly the files that some import reaches before they are finished; without reports that order is topological |
| RendererCycles.OrderIsAcyclic | desktop/scripts/renderer-boundaries.js:143-153 | a topological order excludes cycles, so the two searches agree on every graph |
| LayerRules.DependencyLayerErrors | desktop/scripts/check-architecture.js:391-414 | exactly the imports that break the layering |
| LayerRules.DomainDependencyErrors | desktop/scripts/check-architecture.js:368-389 | exactly the unknown domains and the imports the table forbids |
| LayerRules.DirectoryIsDomain | desktop/scripts/check-architecture.js:360-366 | a file in a directory of `lib` belongs to the domain of that name |
| LayerLaws.ProfileSchemaIsCore | desktop/scripts/check-architecture.js:361 | every path below `lib/profiles/schema/` is in the profile core |
| LayerLaws.ResourceSchemaIsCore | desktop/scripts/check-architecture.js:362 | every path below `lib/resources/schema/` is in the resource core |
| LayerLaws.DirectoriesAreDomains | desktop/scripts/check-architecture.js:48-73 | the other files of the sixteen directories of the table are in the domain of that directory, each given by name |
| LayerLaws.OtherDirectoriesAreUnknown | desktop/scripts/check-architecture.js:363-365 | files in any other directory of `lib` are in no known domain |
| LayerLaws.OutsideHasNone | desktop/scripts/check-architecture.js:363-364 | files outside `lib` have no domain |
| LayerLaws.ImportersAre | desktop/scripts/check-architecture.js:48-73 | the table by its columns: who may import each domain |
| LayerLaws.LayersAre | desktop/scripts/check-architecture.js:396-409 | an import is layered exactly if entries and `lib` import `lib` and the renderer imports itself or the two shared files |
| LayerRules.LibStaysInLib | desktop/scripts/check-architecture.js:391-414 | without layer errors no path leaves `lib` |
| LayerRules.RendererEntersThroughShared | desktop/scripts/check-architecture.js:391-414 | without layer errors a path from the renderer stays there until it enters `lib` through a listed shared source, and then stays in `lib` |
| LayerRules.DomainsFollowTheTable | desktop/scripts/check-architecture.js:48-73 | on a path from `lib` that avoids the legacy root, each domain is allowed to import the next |
| LayerRules.LaterDomainsAreReached | desktop/scripts/check-architecture.js:368-389 | so every file of the path is in the transitive closure of the table |
| LayerRules.FoundationReachesFoundation | desktop/scripts/check-architecture.js:71-72 | in that closure platform and diagnostics reach only each other and the legacy root |
| LayerRules.OnlyCompositionReachesComposition | desktop/scripts/check-architecture.js:48-73 | only application code reaches application code, and only application and IPC code reaches IPC |
| LayerRules.LegacyEscapes | desktop/scripts/check-architecture.js:374-378 | one file in the root of `lib` lets any domain directory reach any other without an error |
| RendererGate.ValidateRegistry | desktop/scripts/renderer-boundaries.js:17-54 | silent exactly for valid registries, and otherwise names the first of the five checks that fails |
| RendererGate.OwnerIsUnique | desktop/scripts/renderer-boundaries.js:78 | valid ids put a file below at most one feature, so the first match is the only one |
| RendererGate.RecordErrors | desktop/scripts/renderer-boundaries.js:105-142 | exactly the faults of one file, and its resolved imports in order |
| RendererGate.RegistryErrors | desktop/scripts/renderer-boundaries.js:79-104 | exactly the faults of scripts, bootstraps, legacy globals and feature entrypoints |
| RendererGate.RendererBoundaryErrors | desktop/scripts/renderer-boundaries.js:75-155 | reports exactly the faults, and of the files on cycles exactly those that some import reaches before they are finished; silent exactly if the registry is valid, nothing is at fault and the graph is acyclic |
| GateLaws.UnlistedGlobalsAreReported | desktop/scripts/renderer-boundaries.js:120-122 | a global is reported exactly if its file exports it and the list of that very file does not hold it |
| GateLaws.GlobalsAreListed | desktop/scripts/renderer-boundaries.js:91-94 | past a silent gate a file exports a global exactly if it stands in the list of that very file |
| GateLaws.FaultsAre | desktop/scripts/renderer-boundaries.js:75-142 | each of the other errors is reported exactly on its condition over registry, records and scripts, owners being the features whose directory a file stands in |
| GateLaws.RegistryIs | desktop/scripts/renderer-boundaries.js:17-54 | a registry is valid exactly if it is within its bounds and its names, paths, scripts, ids and features have the form that is spelled out character by character |
| GateLaws.RegistryPartsAre | desktop/scripts/renderer-boundaries.js:17-54 | what each of the first four checks of the registry accepts, spelled out in the same way |
| GateLaws.PathIs | desktop/scripts/renderer-boundaries.js:9-10 | a safe path is `.` or plain parts with single slashes between them, with or without one at the end |
| GateLaws.TargetIs | desktop/scripts/renderer-boundaries.js:126-133 | an import names a file exactly if it starts with a dot, has no backslash, question mark or hash, and the file is there as written, with `.js`, or as an index, in this order |
| GateLaws.EdgesAre | desktop/scripts/renderer-boundaries.js:126-133 | the graph of the gate has exactly the imports that name a file |
| RendererGate.ImportIsProper | desktop/scripts/renderer-boundaries.js:126-142 | with a silent gate every import of a file into a feature from outside is of its entrypoint, and every import of a feature file is of its own or an allowed feature |
| RendererGate.FeatureReachesAllowed | desktop/scripts/renderer-boundaries.js:126-142 | with a silent gate every file reached from a feature belongs to a feature in the closure of its allowed dependencies |
| RendererGate.FeatureIsEnteredAtEntrypoint | desktop/scripts/renderer-boundaries.js:134-137 | with a silent gate every path into a feature enters at its entrypoint |
| ModuleMap.OverlapIsExact | desktop/scripts/module-map-coverage.js:36-52 | two valid patterns overlap exactly if some valid path matches both, and such a path is given |
| MapLaws.WildMatches | desktop/scripts/module-map-coverage.js:42-44 | a pattern that ends in `/**` matches exactly the files below its directory |
| MapLaws.PlainMatches | desktop/scripts/module-map-coverage.js:42-44 | any other pattern matches exactly the file it names |
| MapLaws.SharingIs | desktop/scripts/module-map-coverage.js:45-52 | valid patterns overlap exactly if both cover some path, covering and paths being written out |
| MapLaws.PathIs | desktop/scripts/module-map-coverage.js:36-41 | a path is valid exactly if it has at most 512 characters and is plain parts with single slashes between them |
| MapLaws.PatternIs | desktop/scripts/module-map-coverage.js:36-41 | a pattern is valid exactly if it is such a path, or one with `/**` behind it |
| MapLaws.ModuleIs | desktop/scripts/module-map-coverage.js:67-74 | a record is valid exactly if its lists are within their bounds and its ids, paths, risk and checks are of the listed forms |
| MapLaws.MapErrorsAre | desktop/scripts/module-map-coverage.js:53-98 | each error of the map is reported exactly on its condition, written out over the records and the paths their patterns cover |
| MapLaws.CoverageErrorsAre | desktop/scripts/module-map-coverage.js:114-145 | each error of the coverage is reported exactly on its condition, with the files that must be owned listed |
| MapLaws.OwnersAre | desktop/scripts/module-map-coverage.js:126-134 | with or without coverage errors, the owner of a file is recorded exactly if it has to be owned, and is the module that holds it |
| MapLaws.ViolationsAre | desktop/scripts/module-map-coverage.js:158-170 | an import is a violation exactly if it crosses modules undeclared or past the public entrypoints |
| MapLaws.ImportErrorsAre | desktop/scripts/module-map-coverage.js:158-163 | an end of an import is reported exactly if no module holds it |
| MapLaws.ImportsAreValid | desktop/scripts/module-map-coverage.js:155-157 | an inventory of imports is valid exactly if it has at most 10000 entries, all of valid paths |
| ModuleMap.SchemaErrors | desktop/scripts/module-map-coverage.js:53-98 | reports exactly the errors of the map, with the early ends of the code, and nothing exactly if the map is clean |
| ModuleMap.CheckRecords | desktop/scripts/module-map-coverage.js:66-85 | the first pass reports exactly the errors of single records and collects all ids and claims of a valid map |
| ModuleMap.CheckOverlaps | desktop/scripts/module-map-coverage.js:91-96 | exactly the pairs of overlapping claims, the earlier named first |
| ModuleMap.CleanIsUnreported | desktop/scripts/module-map-coverage.js:53-98 | a map is clean exactly if no error can be reported of it |
| ModuleMap.DisjointClaims | desktop/scripts/module-map-coverage.js:77-96 | comparing the flat list of claims compares every two patterns of the map |
| ModuleMap.OwnerIsUnique | desktop/scripts/module-map-coverage.js:91-96 | in a clean map no valid path has two owners |
| ModuleMap.AssignOwners | desktop/scripts/module-map-coverage.js:123-134 | owners, counts and errors of all files, the owner recorded exactly for files in scope with a single owner |
| ModuleMap.NeverMultiple | desktop/scripts/module-map-coverage.js:127-129 | the error for several owners is never reported of a clean map |
| ModuleMap.ModuleCoverage | desktop/scripts/module-map-coverage.js:114-145 | reports exactly the coverage errors; without errors every file in scope has an owner, the one module that matches it |
| ModuleMap.FirstOwnerDecides | desktop/scripts/module-map-coverage.js:158-159 | taking the first owner finds exactly the violations that some pair of owners shows |
| ModuleMap.ModuleImportViolations | desktop/scripts/module-map-coverage.js:149-175 | exactly the imports between modules without a declared dependency or past the public entrypoints |
| ModuleMap.OrderIsIrrelevant | desktop/scripts/module-map-coverage.js:149-175 | permuting the modules keeps the map clean and changes no violation, import error or coverage error |
| ModuleMap.OverlapTellsTheOrder | desktop/scripts/module-map-coverage.js:91-96 | of a map that is not clean the overlap errors do depend on the order |
| CommaItems.TopLevelCommaItems | desktop/scripts/check-architecture.js:270-297 | the trimmed, non-empty pieces between the commas at which the scan of the text so far stands outside of quotes and brackets |
| CommaItems.RoundTrip | desktop/scripts/check-architecture.js:270-297 | joining closed, trimmed, non-empty items with commas and splitting again gives back exactly the items |
| CommaItems.SplittingIsStable | desktop/scripts/check-architecture.js:270-297 | every item that comes out is closed, trimmed and not empty, so splitting the joined items changes nothing |
| CommaItems.ItemsOfPiece | desktop/scripts/check-architecture.js:270-297 | text without a separating comma is one trimmed item if it is closed and not blank, and none otherwise |
| CommaItems.ItemsOfMore | desktop/scripts/check-architecture.js:289-295 | what stands before and behind a separating comma is split independently, blank pieces being dropped |
| CommaItems.GrammarRoundTrip | desktop/scripts/check-architecture.js:270-297 | text made of strings in single or double quotes with escapes, groups in round, square or curly brackets, and other characters is closed and survives the round trip |
| CommaItems.CutsAreBalanced | desktop/scripts/check-architecture.js:284-295 | before the first quote a comma separates exactly if as many brackets were opened before it as closed |
| CredentialPage.CleanMeansNoSecrets | desktop/campus-preload.js:83-186 | a page is clean for an origin exactly if it is secure, at that origin, speaks of no challenge, and has no usable password input in a form and no input that can be seen and asks for a code |
| CredentialPage.PageStateIs | desktop/campus-preload.js:83-186 | a page shows a login exactly if some form without anything of a challenge has a usable password, on a page that speaks of a challenge with a second one or a user name beside it; and a challenge exactly if page, form or input speaks of one |
| SpaMonitor.Monitor.ArmFor | desktop/campus-preload.js:256-265 | arming resets the monitor and succeeds exactly on the secure page of that origin with an observer |
| SpaMonitor.Monitor.EvaluatePage | desktop/campus-preload.js:216-236 | the timer runs on exactly while the page is clean |
| SpaMonitor.Monitor.TimerFired | desktop/campus-preload.js:224-233 | a report leaves the monitor disarmed; without one it only lost its timer |
| SpaMonitor.Monitor.StopMonitor | desktop/campus-preload.js:267-273 | stopping leaves nothing armed, running or observed |
| SpaMonitor.ReportIsJustified | desktop/campus-preload.js:193-275 | every report stems from a successful arming for its origin that nothing has ended, with a clean page when the timer started, at every evaluation since, and when it fired |
| SpaMonitor.TimerReportsCleanPages | desktop/campus-preload.js:224-233 | a running timer reports exactly if the page is clean for the armed origin |
| SpaMonitor.ReportsNeedArming | desktop/campus-preload.js:193-275 | after a report or a stop there is no further report without a new successful arming |
| SpaMonitor.OneReportPerArming | desktop/campus-preload.js:193-275 | there are never more reports than successful armings |
| SpaMonitor.TimerRuns | desktop/campus-preload.js:216-275 | the timer runs exactly if an origin is armed and the last event was an arming or evaluation that saw a page clean for it |
| SpaMonitor.ArmedIsHeld | desktop/campus-preload.js:256-273 | an origin is armed exactly if it was accepted on its secure page, and since then there was no arming, no stop and no timer that fired on a clean page |
| RoutingPartitions.BalancedPartitions | desktop/renderer/routing-manager.js:25-36 | exactly the promised number of parts, joined they are the list, sizes fall by at most one over all parts, and no part of a non-empty list is empty |
| RoutingPreview.Preview.PreviewTarget | desktop/renderer/routing-manager.js:129-133 | an empty host clears; any other starts a request with a new revision |
| RoutingPreview.Preview.AnswerArrived | desktop/renderer/routing-manager.js:133-147 | an answer is shown only if its revision is the current one |
| RoutingPreview.RenderedIsLatest | desktop/renderer/routing-manager.js:129-147 | under any interleaving an answer is rendered exactly if no request or clear came after its own request, and for the host that was asked about |
| RoutingPreview.RenderedIncrease | desktop/renderer/routing-manager.js:129-147 | rendered revisions strictly increase, whatever order answers arrive in |
| RoutingPreview.NothingReappears | desktop/renderer/routing-manager.js:121-131 | a clear empties the preview, and whatever is rendered later was asked for after it |
| RoutingPreview.DelayRuns | desktop/renderer/routing-manager.js:121-147 | the delay can end exactly if something was typed and since then it neither ended nor was stopped by a clear or a request with a blank field |
| RoutingPreview.ClearStopsDelay | desktop/renderer/routing-manager.js:121-127 | after a clear the delay does not end before something is typed |
| Bookmarks.Normalizer.Normalize | desktop/renderer/campus-browser.js:186-209 | the pass over the list keeps what the checks keep, each entry against the ids of all kept before it |
| Bookmarks.FirstAppearances | desktop/renderer/campus-browser.js:186-209 | the bar with its folders holds the first valid appearance of every offered id, in order |
| Bookmarks.ResourcesAreFirst | desktop/renderer/campus-browser.js:188-196 | ids kept are unique and new, every offered valid id is kept, and nothing else is |
| BookmarkLaws.CandidateIs | desktop/renderer/campus-browser.js:188-196 | an entry reads as a bookmark exactly with its own flag and its id and name without the white space around them, within their lengths and characters |
| BookmarkLaws.KeptAreFirstReadings | desktop/renderer/campus-browser.js:186-209 | kept in the bar and its folders are exactly the first readings of each id among what the entries offer, and nothing of more than 64 entries |
| BookmarkLaws.OfferedAre | desktop/renderer/campus-browser.js:197-209 | offered are exactly the bookmarks among the entries and what those hold that read as folders of at most 64 |
| BookmarkLaws.EntriesStandFor | desktop/renderer/campus-browser.js:197-209 | every entry of the bar has the texts of one that came in, and a folder holds only readings of what that one held |
| Bookmarks.NormalizedIsSound | desktop/renderer/campus-browser.js:186-209 | at most 64 entries, no folder empty or larger than 64, no id twice in the bar and its folders |
| Bookmarks.NormalizedTwice | desktop/renderer/campus-browser.js:236-251 | rendering the stored list again loses and changes nothing |

## Left out

- RendererSource.AnalysisIsSound: proved in one direction, since a file that breaks a condition may still be covered by luck, as when a function is assigned to itself. The three conditions on the source can be read off it and shut out the whole families of their counterexamples.
- RendererSource.AnalysisIsSound: the fragment has no `this`, arrays, array and rest patterns, computed keys, getters, spreads, compound assignments, class bodies, `new`, generators, `async`, `try`, `switch` or `for` loops, and does not use the names `arguments`, `prototype`, `constructor` and `__proto__`.
- RendererSource.AnalysisIsSound: what host code itself writes on the global, as `Object.assign` does when it is given the global, is not among the writes of the module. A run that reads back something other than a primitive from where it was stored is followed up to that point.
- RendererSource.ConfinedIsSound: proved in one direction, too: a module that passes the global to its own functions only is sound with a tame host, and not confined.
- RendererSource.AnalyzeRendererSource: parsing, the size bound, module exports and imports, global reads, targets of `for` loops, `eval`, `Object.assign`, `Reflect.set` and opaque calls are not modelled. Modelling them would leave the names and problems of the model in the answer and only add to them.
- RendererAnalysis.Analysis.CallPhase: the live iteration over a binding's own set is modelled by reading the set again after each function, in any order.
- RendererAnalysis.Analysis.Inspect: names and problems are sets instead of sorted arrays, and a problem names its node instead of its line.
- RendererAnalysis.Analysis.LookupName: the name maps of all scopes are one map keyed by scope and name.
- CycleSearch.FindCycles: the identity of a cycle is its set of files; the code joins sorted paths with line feeds, which is the same for paths without line feeds.
- CycleSearch.FindCycles: the graph is given. Finding imports in source text, resolving and normalizing relative paths, and reading the file system are not modelled here or in the other gates.
- LayerRules.DomainsFollowTheTable: paths that import on from a file in the root of `lib` are excluded, as `LegacyEscapes` shows they must be.
- ModuleMap.SchemaErrors: the fields beside the modules (versions, dates, status, owner) are one flag; YAML and exact key lists are not modelled, and errors are a set instead of a sorted list.
- RendererGate.RendererBoundaryErrors: errors come in the order they are found and not sorted; exact key lists of the registry are not modelled.
- CredentialPage.CleanMeansNoSecrets: the hint expressions are flags of inputs, forms and pages; capture and autofill of values are not modelled.
- SpaMonitor.ReportIsJustified: a missing document and a missing observer class are one flag; the settling time is not measured, a running timer may fire at any moment.
- RoutingPartitions.BalancedPartitions: counts that are no integers are not modelled.
- RoutingPreview.RenderedIsLatest: the text of an answer and its translation are one string; editing, saving and deleting rules are only seen as they clear or ask.
- Bookmarks.NormalizedTwice: nodes, layout and overflow of the bookmark bar are not modelled.
- `moduleEdgeDebtErrors` compares two lists of texts, and size and line baselines, report printing and `edgeCount` compare numbers: they would add easy members only.
- The end-to-end harnesses, the process and window wiring of `desktop/main.js`, and the Rust engine are not part of this model.
- Text is a sequence of characters; the code counts lengths in UTF-16 units, which differ only beyond the Basic Multilingual Plane.
