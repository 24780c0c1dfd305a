# Drill-down model building and pattern-matched file distribution

A Dafny model of two data distributors from Vitro's data-distribution API.

**DrillDownModelBuilder** builds an RDF model in three steps:

- It runs every top-level model builder and merges their graphs into a local model.
- It runs a SELECT query against that local model.
- For every row of the result, it runs every drill-down builder in a context whose request parameters are overridden by the row's values, merging each graph in.

Each builder is driven through init, buildModel and close. A drill-down builder is also reset, but only after a run that returned.

**PatternMatchingFileDistributor** chooses a file in four steps:

- It takes the first value of a request parameter.
- It finds a pattern in that value.
- It substitutes every capture group into a file-path template (`\0`, `\1`, … replaced literally, in ascending order).
- It resolves the result against the home directory.

It then writes that file's bytes, or a configured empty response when there is no regular file.

Files:

- `wrappers.dfy`: the `Option` and `Result` types.
- `distributor_context.dfy`: request contexts and the drill-down context.
- `model_builder.dfy`: a model builder. One class stands for every builder implementation. Its behaviour is a function of the context it was initialised with. A shared `CallLog` records every call it receives.
- `drill_down_pipeline.dfy`: a run of `buildModel` as a value, given two ways.
  - `Pipeline` follows the nested loops.
  - `Schedule`/`Execute` is an independent flat account: the list of planned builder runs, performed in order until one throws.
- `drill_down_properties.dfy`: the proof that the two accounts agree, and the properties of a run: result, order, close and reset.
- `drill_down_builder.dfy`: the `DrillDownModelBuilder` class. Its `BuildModel` is proved to produce exactly the result and the call log of `Pipeline`. Its two loops are the methods `SeedModel` and `DrillDownRow`.
- `pattern_file_distributor.dfy`: `FileFinder`, `String.replace`, `Path.resolve`, and the distributor class.
  - The methods `Find`, `DoPatternMatching` and `SubstituteIntoFilepath` follow the code, down to the substitution loop.
  - The functions `Resolution`, `MatchOutcome` and `FileFor` are their specifications. The properties of `find` are proved about these functions.

Where the code and its description differ, the code is followed:

- The home directory is applied with `Path.resolve`, so it is not prefixed to a substituted path that is absolute (`AbsoluteMatchIgnoresHome`).
- The groups are substituted one after another into the growing path. Text that one group brings in is therefore open to the replacements of the groups after it (`InsertedPlaceholderResubstituted`).
- For the same reason, when group 1's value has no backslash, `\10` is taken by group 1 followed by `0` (`TenthGroupShadowed`).
- A NUL character in the substituted path makes `Path.resolve` throw an InvalidPathException. It is unchecked, so `writeOutput` does not catch it and it propagates like the NullPointerException of a null group (`FileFor`, `WriteOutput`).

## Model

| member | source | states |
|---|---|---|
| DistributorContext.GetRequestModels | webapp/src/edu/cornell/mannlib/vitro/webapp/controller/api/distribute/modelbuilder/DrillDownModelBuilder.java:139-141 | a context's model access is the model access of the request context at the root of its chain of drill-down contexts |
| DistributorContext.IsAuthorized | webapp/src/edu/cornell/mannlib/vitro/webapp/controller/api/distribute/modelbuilder/DrillDownModelBuilder.java:144-146 | a context authorises a request exactly when the request context at the root of its chain does |
| DistributorContext.OverlayEntries | webapp/src/edu/cornell/mannlib/vitro/webapp/controller/api/distribute/modelbuilder/DrillDownModelBuilder.java:125-130 | the copied parameters hold every name of the baseline and of the row; a row variable maps to the one-element array of its value, overriding the baseline; every other name keeps the baseline's array |
| DistributorContext.DerivedContext | webapp/src/edu/cornell/mannlib/vitro/webapp/controller/api/distribute/modelbuilder/DrillDownModelBuilder.java:117-146 | the drill-down context keeps its baseline, answers the overlaid copy as its request parameters, and reaches the same originating request for model access and authorisation |
| DistributorContext.NestedDrillDown | webapp/src/edu/cornell/mannlib/vitro/webapp/controller/api/distribute/modelbuilder/DrillDownModelBuilder.java:133-136 | a drill-down context derived from another answers the request's parameters overlaid by the outer row and then by the inner row, the inner row winning; its originating request is unchanged |
| DistributorContext.NewDrillDownContext | webapp/src/edu/cornell/mannlib/vitro/webapp/controller/api/distribute/modelbuilder/DrillDownModelBuilder.java:121-131 | the derived context keeps the baseline; its parameter names are the baseline's plus the row's; each row variable maps to the one-element array of its value, overriding the baseline; every other name keeps its baseline array; model access and authorisation are the baseline's |
| ModelBuilders.ModelBuilder.Init | webapp/src/edu/cornell/mannlib/vitro/webapp/controller/api/distribute/modelbuilder/DrillDownModelBuilder.java:79 | a builder's init stores the context, throws or not according to its behaviour, and is recorded as an Init call |
| ModelBuilders.ModelBuilder.BuildModel | webapp/src/edu/cornell/mannlib/vitro/webapp/controller/api/distribute/modelbuilder/DrillDownModelBuilder.java:80 | buildModel returns or throws what the builder's behaviour gives for the context it was initialised with, and is recorded as a Build call |
| ModelBuilders.ModelBuilder.Close | webapp/src/edu/cornell/mannlib/vitro/webapp/controller/api/distribute/modelbuilder/DrillDownModelBuilder.java:82 | close is recorded as a Close call |
| ModelBuilders.ModelBuilder.Reset | webapp/src/edu/cornell/mannlib/vitro/webapp/controller/api/distribute/modelbuilder/DrillDownModelBuilder.java:98 | reset forgets the stored context and is recorded as a Reset call |
| DrillDown.DrillDownModelBuilder.constructor | webapp/src/edu/cornell/mannlib/vitro/webapp/controller/api/distribute/modelbuilder/DrillDownModelBuilder.java:34-36 | a new builder has empty builder lists, no query and no context |
| DrillDown.DrillDownModelBuilder.AddTopLevelModelBuilder | webapp/src/edu/cornell/mannlib/vitro/webapp/controller/api/distribute/modelbuilder/DrillDownModelBuilder.java:39-41 | appends the builder to the top-level list; nothing else changes |
| DrillDown.DrillDownModelBuilder.AddDrillDownQuery | webapp/src/edu/cornell/mannlib/vitro/webapp/controller/api/distribute/modelbuilder/DrillDownModelBuilder.java:44-46 | replaces the drill-down query; nothing else changes |
| DrillDown.DrillDownModelBuilder.AddDrillDownModelBuilder | webapp/src/edu/cornell/mannlib/vitro/webapp/controller/api/distribute/modelbuilder/DrillDownModelBuilder.java:49-51 | appends the builder to the drill-down list; nothing else changes |
| DrillDown.DrillDownModelBuilder.Init | webapp/src/edu/cornell/mannlib/vitro/webapp/controller/api/distribute/modelbuilder/DrillDownModelBuilder.java:56-59 | init only stores the context |
| DrillDown.DrillDownModelBuilder.Close | webapp/src/edu/cornell/mannlib/vitro/webapp/controller/api/distribute/modelbuilder/DrillDownModelBuilder.java:103-105 | close changes nothing |
| DrillDown.DrillDownModelBuilder.Reset | webapp/src/edu/cornell/mannlib/vitro/webapp/controller/api/distribute/modelbuilder/DrillDownModelBuilder.java:108-110 | reset changes nothing |
| DrillDown.DrillDownModelBuilder.RunModelBuilder | webapp/src/edu/cornell/mannlib/vitro/webapp/controller/api/distribute/modelbuilder/DrillDownModelBuilder.java:76-84 | the builder receives init, then buildModel only if init returned, then close in every case; the result is the build's graph or the first error |
| DrillDown.DrillDownModelBuilder.GetDrillDownParameterMaps | webapp/src/edu/cornell/mannlib/vitro/webapp/controller/api/distribute/modelbuilder/DrillDownModelBuilder.java:86-90 | the rows are those the query executor yields for the drill-down query on the local model, in order |
| DrillDown.DrillDownModelBuilder.RunDrillDownModelBuilder | webapp/src/edu/cornell/mannlib/vitro/webapp/controller/api/distribute/modelbuilder/DrillDownModelBuilder.java:92-100 | the builder is run in the row's derived context and is reset after its close only when that run returned, leaving it with no context |
| DrillDown.DrillDownModelBuilder.SeedModel | webapp/src/edu/cornell/mannlib/vitro/webapp/controller/api/distribute/modelbuilder/DrillDownModelBuilder.java:63-66 | the top-level loop: every top-level builder in list order, in the stored context, each merged into an empty model; stops at the first error |
| DrillDown.DrillDownModelBuilder.DrillDownRow | webapp/src/edu/cornell/mannlib/vitro/webapp/controller/api/distribute/modelbuilder/DrillDownModelBuilder.java:69-71 | for one row, every drill-down builder in list order, each merged into the model; stops at the first error |
| DrillDown.DrillDownModelBuilder.BuildModel | webapp/src/edu/cornell/mannlib/vitro/webapp/controller/api/distribute/modelbuilder/DrillDownModelBuilder.java:62-74 | the result and the calls every builder receives are exactly those of the nested-loop account Pipeline, which the lemmas below characterise |
| DrillDownPipeline.Pipeline | webapp/src/edu/cornell/mannlib/vitro/webapp/controller/api/distribute/modelbuilder/DrillDownModelBuilder.java:62-74 | the first call buildModel makes is init on the first top-level builder, and buildModel returns only if the top-level loop returned; the lemmas below characterise the rest |
| DrillDownProperties.RunOfIsPerform | webapp/src/edu/cornell/mannlib/vitro/webapp/controller/api/distribute/modelbuilder/DrillDownModelBuilder.java:76-84 | one runModelBuilder is one planned run of the flat schedule |
| DrillDownProperties.DrillDownRunOfIsPerform | webapp/src/edu/cornell/mannlib/vitro/webapp/controller/api/distribute/modelbuilder/DrillDownModelBuilder.java:92-100 | one runDrillDownModelBuilder is one planned resettable run in the derived context |
| DrillDownProperties.PipelineIsExecute | webapp/src/edu/cornell/mannlib/vitro/webapp/controller/api/distribute/modelbuilder/DrillDownModelBuilder.java:62-74 | the nested loops are the flat schedule (all top-level builders, then each row times each drill-down builder) performed in order until the first error |
| DrillDownProperties.PipelineReturns | webapp/src/edu/cornell/mannlib/vitro/webapp/controller/api/distribute/modelbuilder/DrillDownModelBuilder.java:62-74 | buildModel returns exactly when no scheduled run throws; it then returns the union of every top-level output and of every drill-down output for every row the query yields on that union, and the calls are the full schedule in order, each run closed and each drill-down run reset |
| DrillDownProperties.PipelineThrows | webapp/src/edu/cornell/mannlib/vitro/webapp/controller/api/distribute/modelbuilder/DrillDownModelBuilder.java:76-100 | when buildModel throws, it throws the error of the first run that throws; every earlier run completed; the throwing builder was closed whether init or buildModel threw, was not reset, and nothing runs after it |
| DrillDownProperties.PipelineTrace | webapp/src/edu/cornell/mannlib/vitro/webapp/controller/api/distribute/modelbuilder/DrillDownModelBuilder.java:64-84 | every builder started is closed before the next is started, and the builders are started in schedule order (the inits made are a prefix of the schedule's) |
| DrillDownProperties.NoDrillDownRows | webapp/src/edu/cornell/mannlib/vitro/webapp/controller/api/distribute/modelbuilder/DrillDownModelBuilder.java:64-71 | when the query yields no rows, the inits are a prefix of the top-level builders' inits, each in the request's context: no drill-down builder is started; the result is the union of the top-level outputs |
| PatternFileDistributor.DecimalRoundTrip | webapp/src/edu/cornell/mannlib/vitro/webapp/controller/api/distribute/PatternMatchingFileDistributor.java:175 | the decimal text of a group number reads back as that number |
| PatternFileDistributor.PlaceholderInjective | webapp/src/edu/cornell/mannlib/vitro/webapp/controller/api/distribute/PatternMatchingFileDistributor.java:175 | different groups have different placeholders |
| PatternFileDistributor.Replace | webapp/src/edu/cornell/mannlib/vitro/webapp/controller/api/distribute/PatternMatchingFileDistributor.java:175 | String.replace of a target by itself gives the string back; the left-to-right scan is characterised by ReplaceAbsent and ReplaceFirstOccurrence |
| PatternFileDistributor.ReplaceAbsent | webapp/src/edu/cornell/mannlib/vitro/webapp/controller/api/distribute/PatternMatchingFileDistributor.java:175 | String.replace leaves a string without the target unchanged |
| PatternFileDistributor.ReplaceFirstOccurrence | webapp/src/edu/cornell/mannlib/vitro/webapp/controller/api/distribute/PatternMatchingFileDistributor.java:175 | String.replace scans from the left: the first occurrence is replaced and the scan resumes after it |
| PatternFileDistributor.Substituted | webapp/src/edu/cornell/mannlib/vitro/webapp/controller/api/distribute/PatternMatchingFileDistributor.java:172-176 | substitution of groups 0..n-1 yields a path exactly when every one of those groups took part in the match (a null group throws) |
| PatternFileDistributor.SubstituteNoPlaceholder | webapp/src/edu/cornell/mannlib/vitro/webapp/controller/api/distribute/PatternMatchingFileDistributor.java:172-176 | a template without placeholders is returned unchanged, when every group takes part |
| PatternFileDistributor.Resolve | webapp/src/edu/cornell/mannlib/vitro/webapp/controller/api/distribute/PatternMatchingFileDistributor.java:177 | the resolved path ends with the substituted path, and a relative one starts with the home directory |
| PatternFileDistributor.FileFinder.ParameterFromRequest | webapp/src/edu/cornell/mannlib/vitro/webapp/controller/api/distribute/PatternMatchingFileDistributor.java:149-157 | a value exists exactly when the parameter is present with at least one value, and it is the first one |
| PatternFileDistributor.FileFinder.FileFor | webapp/src/edu/cornell/mannlib/vitro/webapp/controller/api/distribute/PatternMatchingFileDistributor.java:172-178 | a matched value throws a NullPointerException exactly when some group is null; otherwise an InvalidPathException exactly when the substituted path holds a NUL character; otherwise it names a file |
| PatternFileDistributor.FileFinder.MatchOutcome | webapp/src/edu/cornell/mannlib/vitro/webapp/controller/api/distribute/PatternMatchingFileDistributor.java:159-170 | no file exactly when the pattern is not found in the value; otherwise the file the match names, the NullPointerException for a null group, or the InvalidPathException for a NUL character in the path |
| PatternFileDistributor.FileFinder.Resolution | webapp/src/edu/cornell/mannlib/vitro/webapp/controller/api/distribute/PatternMatchingFileDistributor.java:140-170 | no file exactly when the parameter has no value or the pattern is not found in its first value |
| PatternFileDistributor.FileFinder.SubstituteIntoFilepath | webapp/src/edu/cornell/mannlib/vitro/webapp/controller/api/distribute/PatternMatchingFileDistributor.java:172-178 | the loop over groups 0..groupCount computes the substituted template resolved against home, the NullPointerException for a null group, or the InvalidPathException for a NUL character in the path |
| PatternFileDistributor.FileFinder.DoPatternMatching | webapp/src/edu/cornell/mannlib/vitro/webapp/controller/api/distribute/PatternMatchingFileDistributor.java:159-170 | the method computes MatchOutcome: no file when the pattern is not found; otherwise the substituted file, the NullPointerException for a null group, or the InvalidPathException for a NUL character in the path |
| PatternFileDistributor.FileFinder.Find | webapp/src/edu/cornell/mannlib/vitro/webapp/controller/api/distribute/PatternMatchingFileDistributor.java:140-147 | the method computes Resolution, the file the request selects |
| PatternFileDistributor.NoValueNoFile | webapp/src/edu/cornell/mannlib/vitro/webapp/controller/api/distribute/PatternMatchingFileDistributor.java:140-157 | a missing parameter or one without values selects no file |
| PatternFileDistributor.FirstValueOnly | webapp/src/edu/cornell/mannlib/vitro/webapp/controller/api/distribute/PatternMatchingFileDistributor.java:149-157 | only the first value of the parameter decides the file |
| PatternFileDistributor.NoMatchNoFile | webapp/src/edu/cornell/mannlib/vitro/webapp/controller/api/distribute/PatternMatchingFileDistributor.java:159-168 | a value in which the pattern is not found selects no file |
| PatternFileDistributor.MatchSelectsFile | webapp/src/edu/cornell/mannlib/vitro/webapp/controller/api/distribute/PatternMatchingFileDistributor.java:159-178 | on a match, the file is the template with every group substituted, resolved against home; a NullPointerException exactly when a group is null; an InvalidPathException instead of a file when the substituted path holds a NUL character |
| PatternFileDistributor.FixedTemplate | webapp/src/edu/cornell/mannlib/vitro/webapp/controller/api/distribute/PatternMatchingFileDistributor.java:172-177 | a template without placeholders names the same file for every matching value whose groups all take part (or throws the same InvalidPathException for every one, if it holds a NUL character) |
| PatternFileDistributor.TenthGroupShadowed | webapp/src/edu/cornell/mannlib/vitro/webapp/controller/api/distribute/PatternMatchingFileDistributor.java:174-176 | when group 1's value g has no backslash and every group substituted so far is non-null, `\10` becomes g followed by `0`: it is taken by group 1, never by group 10 |
| PatternFileDistributor.WholeMatchTemplate | webapp/src/edu/cornell/mannlib/vitro/webapp/controller/api/distribute/PatternMatchingFileDistributor.java:172-176 | a template with the single placeholder `\0` amid text without backslashes becomes that text around the whole match, whatever the values of the other groups, provided every group takes part and the whole match contains no backslash either |
| PatternFileDistributor.InsertedPlaceholderResubstituted | webapp/src/edu/cornell/mannlib/vitro/webapp/controller/api/distribute/PatternMatchingFileDistributor.java:174-176 | text a group brings into the path is substituted again by the groups after it: for a and b without backslashes and a match with exactly one group, template `\0` and a whole match a`\1`b give the path a, then group 1's value, then b |
| PatternFileDistributor.AbsoluteMatchIgnoresHome | webapp/src/edu/cornell/mannlib/vitro/webapp/controller/api/distribute/PatternMatchingFileDistributor.java:177 | with template `\0`, every group non-null, and a whole match that is an absolute path with no backslash and no NUL character in it, the file is that path itself whatever the home directory: the home directory is not prefixed |
| PatternFileDistributor.CrossUnitExample | webapp/src/edu/cornell/mannlib/vitro/webapp/controller/api/distribute/PatternMatchingFileDistributor.java:28-36 | with the configuration of the class comment and any home directory given without a trailing slash, a request whose department value the parser matches as w selects home/crossunit-w.json, for every w without a NUL character; for one with a NUL character, an InvalidPathException |
| PatternFileDistributor.Choice | webapp/src/edu/cornell/mannlib/vitro/webapp/controller/api/distribute/PatternMatchingFileDistributor.java:103-109 | the empty response is sent exactly when there is no file or it is not a regular file; the file's contents exactly when it is one; nothing when find threw a NullPointerException or an InvalidPathException |
| PatternFileDistributor.PatternMatchingFileDistributor.constructor | webapp/src/edu/cornell/mannlib/vitro/webapp/controller/api/distribute/PatternMatchingFileDistributor.java:44-58 | an unconfigured distributor has empty settings and no file finder |
| PatternFileDistributor.PatternMatchingFileDistributor.SetParameterName | webapp/src/edu/cornell/mannlib/vitro/webapp/controller/api/distribute/PatternMatchingFileDistributor.java:60-63 | sets the parameter name; nothing else changes |
| PatternFileDistributor.PatternMatchingFileDistributor.SetParameterPattern | webapp/src/edu/cornell/mannlib/vitro/webapp/controller/api/distribute/PatternMatchingFileDistributor.java:65-68 | sets the pattern; nothing else changes |
| PatternFileDistributor.PatternMatchingFileDistributor.SetFilepathPattern | webapp/src/edu/cornell/mannlib/vitro/webapp/controller/api/distribute/PatternMatchingFileDistributor.java:70-73 | sets the template; nothing else changes |
| PatternFileDistributor.PatternMatchingFileDistributor.SetContentType | webapp/src/edu/cornell/mannlib/vitro/webapp/controller/api/distribute/PatternMatchingFileDistributor.java:75-78 | sets the content type; nothing else changes |
| PatternFileDistributor.PatternMatchingFileDistributor.SetEmptyResponse | webapp/src/edu/cornell/mannlib/vitro/webapp/controller/api/distribute/PatternMatchingFileDistributor.java:80-83 | sets the empty response; nothing else changes |
| PatternFileDistributor.PatternMatchingFileDistributor.Init | webapp/src/edu/cornell/mannlib/vitro/webapp/controller/api/distribute/PatternMatchingFileDistributor.java:86-92 | keeps the request parameters and builds the file finder from the configuration and the home directory |
| PatternFileDistributor.PatternMatchingFileDistributor.GetContentType | webapp/src/edu/cornell/mannlib/vitro/webapp/controller/api/distribute/PatternMatchingFileDistributor.java:95-97 | always the configured content type, whatever file is found |
| PatternFileDistributor.PatternMatchingFileDistributor.WriteOutput | webapp/src/edu/cornell/mannlib/vitro/webapp/controller/api/distribute/PatternMatchingFileDistributor.java:100-113 | appends the file's bytes when find names a regular file, otherwise the encoded empty response; a read or write IOException becomes a DataDistributorException with nothing written; a NullPointerException or an InvalidPathException from find propagates with nothing written |
| PatternFileDistributor.PatternMatchingFileDistributor.Close | webapp/src/edu/cornell/mannlib/vitro/webapp/controller/api/distribute/PatternMatchingFileDistributor.java:116-118 | close changes nothing |

## Left out

- Jena models and SPARQL execution: a model is a set of triples, and `add` is union. The SELECT query is an uninterpreted function (`SelectExecutor`) from a graph and a query string to the ordered rows.
- ModelBuilder implementations: ModelBuilder.java and ResettableModelBuilder.java are not part of this model.
  - One class with a behaviour function stands for every implementation.
  - A DrillDownModelBuilder used as a child of another is not modelled.
  - Each builder's `close` and `reset` never throw.
  - Only DataDistributorException is thrown; runtime exceptions from builders are not modelled.
- DrillDown.DrillDownModelBuilder.BuildModel: it requires every builder to record into one shared call log. This is a modelling device that makes the order of calls observable; it is not a demand of the source.
- DrillDown.DrillDownModelBuilder.BuildModel: it requires `init` to have stored a context. Run before `init`, the source hands the top-level builders a null context, and the `DrillDownContext` of the first drill-down row dereferences it and throws a NullPointerException (DrillDownModelBuilder.java:95, :126); that path is not modelled.
- DrillDown.DrillDownModelBuilder.SeedModel: the first loop of `buildModel` is written as its own method. This keeps each proof small; the calls and their order are the source's.
- DrillDown.DrillDownModelBuilder.DrillDownRow: the inner loop of `buildModel` is written as its own method, called once per row, for the same reason.
- DataDistributorBase.java is not part of this model. Its `init` is taken to store the context's request parameters, which `PatternMatchingFileDistributor.Init` keeps.
- Configuration: the reflective injection of `@Property` values and their `minOccurs`/`maxOccurs` checks are left out. An unset setting holds the constructor's empty default rather than null.
- PatternFileDistributor.PatternMatchingFileDistributor.WriteOutput: it requires `init` to have run first. Without it the source throws a NullPointerException.
- Regular expressions: a compiled pattern is a function from a value to the groups of its first match. `Pattern.compile` and its syntax errors are left out.
- PatternFileDistributor.Resolve: follows the Unix `Path.resolve`, but without the normalisation of repeated or trailing slashes. Other platforms' path rules are left out.
- PatternFileDistributor.FileFinder.FileFor: the unchecked InvalidPathException that `Path.resolve` throws is modelled for a NUL character in the path (`InvalidPathThrown`). The same exception for a character the platform's path encoding cannot map is left out, because it depends on the locale the JVM runs in.
- The file system is a pair of functions: `isFile`, and `read`, which returns the bytes or an IOException.
  - Opening a FileInputStream that is never closed is not modelled.
  - A copy that fails part-way is not modelled: an output stream accepts every write or refuses every write.
  - A read failure writes nothing.
- The platform default charset that `IOUtils.write` uses is a parameter (`encode`).
- Logging (`log.warn`) is left out.
