# sql-engines-common-test-infra, modelled in Dafny

This project models the two tools of the MongoDB SQL engines' shared test infrastructure and
proves properties of the model.

- **The test generator** (`test-generator/src/lib.rs`) is used by build scripts. It walks a
  directory of YAML test files. For every `.yml` or `.yaml` file it asks a factory for a
  `TestGenerator`, appends a `pub mod <name>;` line to a generated mod file, and writes a
  generated Rust test file. That file holds a header, then one fragment per parsed test case.
  - Module names come from `normalize_path`.
  - Test function names come from `sanitize_description`.
- **The generator's own test** (`test-generator/src/test/generate_tests.rs`) plugs in a factory
  and two generators, sample and alt:
  - the sample generator stubs out a skipped case as an ignored test;
  - the alt generator panics on a skipped case.
  - The test's expected output is proved about the model: the mod file, the function names and
    the index each generated test reads.
- **The data loader** (`data-loader/src/main.rs`) reads YAML and JSON test data files and
  rejects entries that do not name exactly one collection or view. Against a mongod it then:
  1. drops the namespaces the files name;
  2. loads documents, indexes and views;
  3. on a load failure, drops everything again;
  4. writes schemas, either as `sqlSetSchema` or `sqlGenerateSchema` commands to ADF (Atlas Data
     Federation) in ADF mode, or as documents in `__sql_schemas` on the mongod otherwise.

Modules:

- `Wrappers`: `Option` and `Result`.
- `Text`: Rust's `str::replace` (non-overlapping, left to right), `contains` and `join`, with
  their laws.
- `Paths`: `Path::file_name` and `Path::extension` on '/'-separated paths.
- `Naming`: `sanitize_description` and `normalize_path`.
- `Generation`: the engine.
  - The file system it writes is the class `FileSystem`: the mod file's chunks and a map from
    generated test file names to their contents.
  - Each method is proved equal to a specification function of the old state. The lemmas are
    about those functions.
  - What the outside world answers (directory listings, failing writes, canonicalization) is an
    `Env` value given as a parameter.
- `SampleGenerators`: the test's factory and generators, and its expected output.
- `DataLoader`: `read_data_files` as a loop proved against a function, and the database
  clients as a class `Client`.
  - A `Client` holds the trace of operations sent to the server, and an answer oracle that
    decides whether the server accepts each operation.
  - Each step of `main` is a method proved equal to `Issue` (sending a planned operation list
    and stopping at the first refusal).
  - `main` itself is `RunLoader`, proved equal to `MainEffect`.

Where the documentation and the code disagree, the model follows the code:

- `generate_tests` is documented (lib.rs:200-202) to remove existing files at the generated
  paths. The mod file is opened for appending (lib.rs:236-241), and only the generated
  directory is removed. So a mod file outside that directory keeps its old contents and gains
  another header. `RunModFile` and `RerunModFile` state this.
- The data loader's documentation (main.rs:16-20, 70-77) says views and pipelines are ignored
  against ADF. `load_test_data` creates views whenever a definition is given, whatever the mode
  (main.rs:313-329), and the model does the same.
- `normalize_path` removes `.yml` anywhere in the path, not only as the extension. It leaves
  `.yaml` in place, so a `.yaml` file's module name keeps `.yaml`
  (`NormalizeKeepsYaml`, `NormalizeLeavesYml`).
- The test generators in generate_tests.rs implement `generate_test_file_body`, which parses the
  file and loops over its cases. The trait in lib.rs instead has `parse_yaml` and
  `generate_test_case`, and `generate_test_file` runs the loop (lib.rs:145-151).
  - The model follows lib.rs: a generator is its header step, its parse, and its per-case step.
  - Each generator's per-case step is the body of its loop in generate_tests.rs.
- The parse test's fifth case (test-generator/src/test/parse_yaml_file.rs:75) says
  "Test with one option". The generation test expects a function `Test_with_two_options` for
  that position (generate_tests.rs:229). The YAML data is not part of this model; the
  expected-output lemmas take each description as the one the generation test expects.

## Model

| member | source | states |
|---|---|---|
| Generation.ParseYamlTestFile | test-generator/src/lib.rs:166-177 | parsing succeeds exactly when the file opens and deserializes, and then returns its contents; an open failure is `Io("failed to open test file '<path>'")` and a bad file is `CannotDeserializeYaml(path)` |
| Generation.CasesEffectSpec | test-generator/src/lib.rs:147-151 | the case loop appends the fragments of cases 0..k-1 in index order, where k is the first case that does not write; it succeeds exactly when there is no such case, and otherwise ends with that case's error or panic |
| Generation.ModEntryFirst | test-generator/src/lib.rs:117-119 | the mod entry is written before anything else: when it fails, nothing is written and its error is returned; once written, it stays whatever happens later |
| Generation.TestFileOnlyItsOwn | test-generator/src/lib.rs:121-128 | generating one test file adds at most its own `<name>.rs` and leaves every other generated file unchanged |
| Generation.TestFileContents | test-generator/src/lib.rs:110-154 | when the mod entry, open, canonicalize, header and parse all succeed, the test file holds its old contents, then the header exactly once, then the case fragments in parse order up to the first case that does not write; success exactly when there is none |
| Generation.HeaderBeforeParse | test-generator/src/lib.rs:130-145 | the header is written before the parse, so a parse failure leaves the header alone in the file and returns the parse error |
| Generation.TestFileSuccess | test-generator/src/lib.rs:110-154 | `generate_test_file` succeeds exactly when each of its steps succeeds, including every test case |
| Generation.TestFileModEntry | test-generator/src/lib.rs:117-119 | a test file adds its own mod entry or none, and certainly adds it when it succeeds |
| Generation.FileGenerates | test-generator/src/lib.rs:290-293 | a regular file gets a generated test file exactly when its extension is `yml` or `yaml` |
| Generation.FileModLines | test-generator/src/lib.rs:290-304 | a regular file's step adds its own mod entries or none, and all of them when it succeeds |
| Generation.TestFileKeys | test-generator/src/lib.rs:121-128 | a test file's generation only adds files, at most its own, and its own whenever it succeeds |
| Generation.FileTestFiles | test-generator/src/lib.rs:290-304 | a regular file's step adds at most the generated files of its YAML files, and all of them when it succeeds |
| Generation.EntryModLines | test-generator/src/lib.rs:261-305 | handling one listing entry appends some first entries of the mod lines of the YAML files below it, in walk order, and all of them when it succeeds |
| Generation.TraverseModLines | test-generator/src/lib.rs:255-308 | `traverse` appends some first entries of the mod lines of the YAML files it meets, in walk order, and all of them when it succeeds |
| Generation.EntryTestFiles | test-generator/src/lib.rs:261-305 | handling one entry never removes a generated file, adds only those of the YAML files below it, and adds all of them when it succeeds |
| Generation.TraverseTestFiles | test-generator/src/lib.rs:255-308 | the walk never removes a generated file, adds only those of the YAML files it meets, and adds all of them when it succeeds |
| Generation.TraverseSplit | test-generator/src/lib.rs:261-307 | the walk over a directory is the walk over its first k entries, followed, only when that succeeds, by the walk over the rest on the disk it left |
| Generation.TraverseStopsAt | test-generator/src/lib.rs:261-307 | the walk stops at the first failing entry: it ends with that entry's outcome and disk, and is the walk over the entries up to it alone, so no later entry is handled |
| Generation.TestFileFresh | test-generator/src/lib.rs:110-154 | a successful `generate_test_file` into a file that did not exist leaves it holding exactly the header and every case's fragment in order, and changes no other file |
| Generation.FileFresh | test-generator/src/lib.rs:290-303 | the same for a YAML file met by the walk, with the generator the factory gives |
| Generation.EntryFresh | test-generator/src/lib.rs:261-305 | after one successful entry, each YAML file below it whose test file is new and distinct holds exactly its header and all its case fragments; files that existed are unchanged |
| Generation.TraverseFresh | test-generator/src/lib.rs:255-308 | the same for a successful walk over all the entries |
| Generation.DistinctSplit | test-generator/src/lib.rs:255-308 | distinct test file names of a list are distinct in each part, and the parts share none |
| Generation.RunStopsAtSetup | test-generator/src/lib.rs:209-234 | when the generated directory cannot be created, the run fails before writing anything: with `Multiple` of the delete error then the create error when removal failed too, disk unchanged; otherwise with the create error and an emptied directory |
| Generation.RunAfterSetup | test-generator/src/lib.rs:209-252 | once the directory is created the set-up never fails and leaves it empty; the run then fails with "failed to create or open generated mod file" before the header, or with "failed to read test directory" after it, or is the walk of the test directory after the header |
| Generation.RunModFile | test-generator/src/lib.rs:203-252 | a successful run leaves the mod file as its old contents (dropped when it lies in the generated directory), then one header, then one entry per YAML file in walk order |
| Generation.RunTestFiles | test-generator/src/lib.rs:200-252 | after a successful run, the generated directory holds exactly the test files of the YAML files found |
| Generation.RerunModFile | test-generator/src/lib.rs:236-241 | two successful runs over the same tree leave the same mod file as one run when it lies in the generated directory; otherwise header and entries accumulate |
| Generation.TestFileIgnoresModFile | test-generator/src/lib.rs:110-154 | what one test file writes into the generated test files, and its outcome, do not depend on the mod file's contents |
| Generation.TraverseIgnoresModFile | test-generator/src/lib.rs:255-308 | nor do those of the walk |
| Generation.RerunTestFiles | test-generator/src/lib.rs:209-252 | when a run succeeds, a second run over the same tree succeeds too and leaves the same generated test files |
| Generation.RunFileContents | test-generator/src/lib.rs:203-252 | after a successful run over YAML files with distinct test file names, each test file holds exactly its header and all its case fragments, nothing from before the run |
| Generation.TestFileNameInjective | test-generator/src/lib.rs:122 | different module names give different test file names |
| Generation.FileSystem.WriteModEntry | test-generator/src/lib.rs:324-327 | appends `pub mod <name>;` or returns `Io("failed to write '<name>' to mod file")`, as `ModEntryEffect` |
| Generation.FileSystem.GenerateTestFile | test-generator/src/lib.rs:110-154 | the new file system and outcome are `TestFileEffect` of the old one |
| Generation.FileSystem.WriteCases | test-generator/src/lib.rs:149-151 | only the open test file changes, to what `CasesEffect` gives |
| Generation.FileSystem.Traverse | test-generator/src/lib.rs:255-308 | the new file system and outcome are `TraverseEffect` of the old one |
| Generation.FileSystem.TraverseEntry | test-generator/src/lib.rs:261-305 | one entry's effect is `EntryEffect` of the old state |
| Generation.FileSystem.GenerateTests | test-generator/src/lib.rs:203-252 | the new file system and outcome are `RunEffect` of the old one |
| Naming.SanitizeRemoves | test-generator/src/lib.rs:181-190 | no separator and none of `$ / ? = * \|` survives sanitizing |
| Naming.SanitizeKeeps | test-generator/src/lib.rs:181-190 | every other char of the description except '>' is kept |
| Naming.SanitizeChars | test-generator/src/lib.rs:181-190 | every char of the result is a kept char of the description or a lower-case letter or '_' |
| Naming.SanitizeUnchanged | test-generator/src/lib.rs:181-190 | a description without any replaced char is its own name |
| Naming.SanitizeIdempotent | test-generator/src/lib.rs:181-190 | sanitizing a sanitized name changes nothing |
| Naming.SanitizeNotShorter | test-generator/src/lib.rs:181-190 | a name is never shorter than its description |
| Naming.SanitizeMapsSeparators | test-generator/src/lib.rs:182 | without rule chars, sanitizing maps each separator to '_' in place and keeps every other char |
| Naming.SanitizeArrow | test-generator/src/lib.rs:182-183 | `=>` becomes `arrow` as a whole, not `equals` followed by '>' |
| Naming.SanitizeEquals | test-generator/src/lib.rs:182-187 | a `=` not followed by '>' becomes `equals` |
| Naming.SanitizeArrowExample | test-generator/src/lib.rs:181-190 | "a => b" becomes "a_arrow_b" |
| Naming.SanitizeEqualsExample | test-generator/src/lib.rs:181-190 | "x=y" becomes "xequalsy" |
| Naming.SanitizeJoin | test-generator/src/lib.rs:181-190 | parts free of rule chars, joined by a separator text free of rule chars, are sanitized part by part |
| Naming.SanitizeWords | test-generator/src/lib.rs:182 | identifier words separated by spaces become the same words separated by '_' |
| Naming.NormalizeNoSeparators | test-generator/src/lib.rs:312-322 | a module name holds no '/' and no '\\' |
| Naming.NormalizeNotLonger | test-generator/src/lib.rs:312-322 | a module name is never longer than its path |
| Naming.NormalizeStripsTestRoot | test-generator/src/lib.rs:316 | a leading `../tests/` does not change the module name |
| Naming.NormalizeAppend | test-generator/src/lib.rs:312-322 | a prefix without '.' or '\\' is normalized on its own, only its '/' mapped to '_' |
| Naming.NormalizeStripsInnerTestRoot | test-generator/src/lib.rs:316 | `../tests/` is removed wherever it occurs: after a prefix with no '.' or '\\' it is dropped, and the prefix keeps only its '/' mapped |
| Naming.NormalizeYml | test-generator/src/lib.rs:321 | `.yml` normalizes to nothing |
| Naming.NormalizeYaml | test-generator/src/lib.rs:312-322 | `.yaml` is kept |
| Naming.NormalizeOrdinary | test-generator/src/lib.rs:312-322 | an ordinary `p.yml` becomes p with '/' mapped to '_', char by char |
| Naming.NormalizeKeepsYaml | test-generator/src/lib.rs:312-322 | an ordinary `p.yaml` keeps its `.yaml` |
| Naming.NormalizeNotInjective | test-generator/src/lib.rs:312-322 | a '/' and a '_' in the same place give the same module name |
| Naming.NormalizeCollision | test-generator/src/lib.rs:312-322 | `a/b.yml` and `a_b.yml` share the module `a_b` |
| Naming.NormalizeLeavesYml | test-generator/src/lib.rs:321 | one left-to-right pass can leave a `.yml`: `..ymlyml` becomes `.yml` |
| Naming.NormalizeWords | test-generator/src/lib.rs:312-322 | a path of identifier components ending in `.yml` becomes the components joined by '_' |
| SampleGenerators.FactoryDispatch | test-generator/src/test/generate_tests.rs:112-120 | the factory always succeeds: a path containing `alt` gets the alt header and panics on skipped cases; any other path gets the sample header and does not panic |
| SampleGenerators.SampleBodies | test-generator/src/test/generate_tests.rs:35-55 | one fragment per case in order, named after the sanitized description: an ignored stub with the skip reason and feature `sample` exactly for skipped cases, otherwise a body reading its own index |
| SampleGenerators.SampleCaseWrites | test-generator/src/test/generate_tests.rs:35-55 | with no failing write, each case writes its stub or body |
| SampleGenerators.SampleWritesAll | test-generator/src/test/generate_tests.rs:35-55 | with no failing write, the sample generator writes every case, giving `SampleBodies` |
| SampleGenerators.SampleFileContents | test-generator/src/test/generate_tests.rs:16-58 | a sample file whose steps all succeed adds its mod entry and a test file holding the sample header, then `SampleBodies` of its cases |
| SampleGenerators.FirstSkip | test-generator/src/test/generate_tests.rs:91-94 | the first skipped case from a position on: none before it, and it is skipped |
| SampleGenerators.AltBodies | test-generator/src/test/generate_tests.rs:95-103 | one alt body per case in order, named after the sanitized description and reading its own index |
| SampleGenerators.AltCaseWrites | test-generator/src/test/generate_tests.rs:91-104 | with no failing write, an unskipped case writes its alt body |
| SampleGenerators.AltStopsAtSkip | test-generator/src/test/generate_tests.rs:91-104 | with no failing write, the alt generator stops exactly at the first skipped case, having written the bodies before it |
| SampleGenerators.AltFileContents | test-generator/src/test/generate_tests.rs:71-106 | an alt file holds its header and the bodies before the first skipped case; generation succeeds when no case is skipped and otherwise panics with "alt tests should not have skip_reasons" |
| SampleGenerators.SanitizeClauses | test-generator/src/test/generate_tests.rs:183-229 | a description of identifier words separated by spaces and ", " becomes those words separated by '_' and "__" |
| SampleGenerators.SingleExpectationName | test-generator/src/test/generate_tests.rs:183 | the first description becomes `Test_with_no_skip_reason__no_options__and_a_single_expectation` |
| SampleGenerators.DescriptionNames | test-generator/src/test/generate_tests.rs:198-229 | the other four descriptions become the four expected function names |
| SampleGenerators.AltTestName | test-generator/src/test/generate_tests.rs:272 | the alt description becomes `Alt_test` |
| SampleGenerators.ExpectedSampleBodies | test-generator/src/test/generate_tests.rs:159-240 | for five cases with only the second skipped: the second is an ignored stub with its reason and no index, and the others read `tests.get(0)`, `get(2)`, `get(3)` and `get(4)` |
| SampleGenerators.ExpectedAltBodies | test-generator/src/test/generate_tests.rs:248-278 | the single alt case is not skipped, so there is no panic; its body is `Alt_test` reading `tests.get(0)` |
| SampleGenerators.SampleModuleName | test-generator/src/test/generate_tests.rs:138 | the sample test file's module is `src_test_testdata_sample_test_file` |
| SampleGenerators.AltModuleName | test-generator/src/test/generate_tests.rs:139 | the alt test file's module is `src_test_testdata_alt_sample_test_file` |
| SampleGenerators.SampleNotAlt | test-generator/src/test/generate_tests.rs:114-117 | the sample test file's path does not contain `alt`, so it gets the sample generator |
| SampleGenerators.AltHasAlt | test-generator/src/test/generate_tests.rs:114-115 | the alt test file's path contains `alt`, so it gets the alt generator |
| SampleGenerators.RunOfTwo | test-generator/src/lib.rs:203-252 | a successful run over exactly two YAML files leaves a mod file of the header and their two entries in walk order, and exactly their two test files |
| SampleGenerators.RunOfEither | test-generator/src/lib.rs:203-252 | the same for two files met in either order: one of the two mod texts, and exactly the two test files |
| SampleGenerators.ExpectedModFile | test-generator/src/test/generate_tests.rs:122-157 | for any factory, a successful run over the two test files, in either order, gives one of the test's two accepted mod files, and the generated directory holds exactly the two expected test file names |
| SampleGenerators.ModuleNamesDiffer | test-generator/src/test/generate_tests.rs:138-139 | the two modules differ |
| SampleGenerators.RunOfEitherContents | test-generator/src/lib.rs:203-252 | a successful run over exactly two YAML files with different modules, in either order, leaves each of their test files holding its header and all its case fragments |
| SampleGenerators.SampleFresh | test-generator/src/test/generate_tests.rs:16-58 | the sample test file generated with no failing write is well formed and its test file is the sample header, then `SampleBodies` of its cases |
| SampleGenerators.AltFresh | test-generator/src/test/generate_tests.rs:71-106 | the alt test file generated with no failing write is well formed, has no skipped case, and its test file is the alt header, then `AltBodies` of its cases |
| SampleGenerators.ExpectedTestFiles | test-generator/src/test/generate_tests.rs:159-285 | a successful run of the test's own factory with no failing write over the two test files, in either order, leaves `src_test_testdata_sample_test_file.rs` holding the sample header then `SampleBodies` of the sample file's cases, and `src_test_testdata_alt_sample_test_file.rs` holding the alt header then `AltBodies` of the alt file's cases, none of them skipped |
| DataLoader.InvalidCountZero | data-loader/src/main.rs:233-244 | the count of entries with both or neither of collection and view is zero exactly when every entry has exactly one |
| DataLoader.ReadDataFiles | data-loader/src/main.rs:213-251 | the loop's result is `DataFilesRead` of the directory |
| DataLoader.ReadSucceeds | data-loader/src/main.rs:213-251 | a read succeeds exactly when every listed item reads without error, and then returns the accepted files in listing order |
| DataLoader.FirstErrorAborts | data-loader/src/main.rs:215-244 | the first item that fails ends the whole read with its error |
| DataLoader.ReadValid | data-loader/src/main.rs:233-246 | every file of a successful read has only valid entries |
| DataLoader.InvalidEntryRejects | data-loader/src/main.rs:233-246 | a deserialized file is rejected with `InvalidViewOrCollectionDataEntry(path)` exactly when one of its entries is invalid, and returned otherwise |
| DataLoader.FormatOfChild | data-loader/src/main.rs:220-231 | `yml` and `yaml` select YAML, `json` selects JSON, any other extension is skipped |
| DataLoader.NoExtensionSkipped | data-loader/src/main.rs:220 | a file without an extension is skipped, without being opened |
| DataLoader.IssueSucceeds | data-loader/src/main.rs:253-274 | a sequence of awaited operations succeeds exactly when the server accepts each, and then the server has received them all in order |
| DataLoader.IssueStops | data-loader/src/main.rs:253-274 | the first refused operation ends the sequence with its `Mongo` error; the server has received the operations up to and including it, and no later one |
| DataLoader.LoadOpsMeaning | data-loader/src/main.rs:276-335 | an entry inserts its documents exactly when it is a collection with documents, creates indexes exactly when that collection lists some, and creates a view exactly when it is a view with a definition; all of it in the entry's own database |
| DataLoader.DropOpsOfValid | data-loader/src/main.rs:253-274 | a valid entry drops its collection or view, then its database's `__sql_schemas` |
| DataLoader.DropCoversEntry | data-loader/src/main.rs:253-335 | every namespace that loading an entry, or writing its mongod schema, writes to is one that dropping the entry drops |
| DataLoader.SchemaOpsMeaning | data-loader/src/main.rs:337-417 | each valid entry gets one ADF command for its own namespace (`sqlSetSchema` with version 1 on its database when it has a schema, otherwise `sqlGenerateSchema` on `admin`); against a mongod, one schema document with `_id` its name and `type` its kind, exactly when it has a schema |
| DataLoader.PlanMember | data-loader/src/main.rs:254-255 | an operation is in a step's plan exactly when it belongs to the operations of some entry of some file |
| DataLoader.DropCoversPlan | data-loader/src/main.rs:179-183 | dropping all files drops every namespace that loading them or writing their mongod schemas writes to, so the drop after a failed load leaves nothing behind |
| DataLoader.Client.Send | data-loader/src/main.rs:259 | one awaited operation, its refusal becoming `DataLoaderError::Mongo` |
| DataLoader.Client.DropEntry | data-loader/src/main.rs:256-269 | the trace and result are `Issue` of the entry's drops |
| DataLoader.Client.LoadEntry | data-loader/src/main.rs:279-330 | the trace and result are `Issue` of the entry's loads |
| DataLoader.Client.SetSchemaInAdf | data-loader/src/main.rs:340-371 | the trace and result are `Issue` of the entry's ADF command |
| DataLoader.Client.SetSchemaInMongod | data-loader/src/main.rs:381-413 | the trace and result are `Issue` of the entry's schema document, if any |
| DataLoader.Client.DropCollections | data-loader/src/main.rs:253-274 | the trace and result are `Issue` of the drop plan of all files |
| DataLoader.Client.LoadTestData | data-loader/src/main.rs:276-335 | the trace and result are `Issue` of the load plan |
| DataLoader.Client.SetSchemasInAdf | data-loader/src/main.rs:337-376 | on valid files, the trace and result are `Issue` of the ADF schema plan |
| DataLoader.Client.SetSchemasInMongod | data-loader/src/main.rs:378-417 | on valid files, the trace and result are `Issue` of the mongod schema plan |
| DataLoader.RunLoader | data-loader/src/main.rs:156-211 | both servers' traces and the result are `MainEffect` of the old traces |
| DataLoader.MainSucceeds | data-loader/src/main.rs:156-211 | a successful run connected, read only valid files, and sent the mongod the drops, loads and (outside ADF mode) schema documents in order; in ADF mode ADF received the schema commands, otherwise nothing |
| DataLoader.LoadFailureDropsAll | data-loader/src/main.rs:179-183 | after a load fails with e, everything is dropped again and the run fails, with e when that drop succeeds and with the drop's error otherwise; ADF receives nothing |
| DataLoader.AdfOnlyInAdfMode | data-loader/src/main.rs:185-210 | outside ADF mode nothing is ever sent to ADF |

## Left out

- Deserialization (serde_yaml and serde_json) is an oracle. What a file deserializes into, or why it cannot, is given as a `Source` or `Files` value; the YAML and JSON grammars are not modelled.
- The order in which `read_dir` lists entries is not known. Listings are given in some order, and results are stated for that order (the generation test accepts either order).
- Template texts (`include_str!`) and the Rust text they expand to are not modelled. A written fragment is the template plus its arguments; the mod header and `pub mod` lines are modelled as text.
- The generated tests' `Once` cache, `unsafe` statics and anything the generated code does at run time are left out; only the text written for them is modelled.
- `write!` of the mod header is modelled as always succeeding. The source unwraps it (lib.rs:241), so a failure there would panic.
- `into_string().unwrap()` on non-UTF-8 paths (lib.rs:313-315) and `to_string_lossy` are left out, because paths are strings here.
- `normalize_path`'s backslash rules are modelled as written, but path parsing treats only '/' as a separator: Windows paths are not modelled.
- The sample and alt generators read different case types. The model merges them into one generic `YamlTestCase` and tells them apart by the source each generator reads.
- `TestFactory` always returns `Ok`. The factory returns a boxed `dyn TestGenerator` where the trait declares `impl TestGenerator` (generate_tests.rs:113). The model needs only the generator.
- Data loader connections are parameters, so whether `Client::with_uri_str` fails is given. The defaults built from `MDB_TEST_LOCAL_*` and `ADF_TEST_LOCAL_*` environment variables, and their `expect` panics, are left out.
- What the servers answer is the oracle `Answer`, so server semantics are not modelled. The server's state is the trace of operations it received.
- `lastUpdated: DateTime::now()` in mongod schema documents is left out, as a clock value.
- The `unreachable!` in `set_schemas_in_adf` and `set_schemas_in_mongod` (main.rs:344, 385) is a `requires IsValid` on the per-entry operations, which `ReadValid` discharges for every file `main` passes on.
- `println!` progress output of both tools is left out.
- SetupEffect: when both removing and creating the generated directory fail, the model leaves the disk unchanged. `remove_dir_all` can have deleted part of the directory before failing; which part is not modelled.
- The mod file and the generated test files are kept apart (`Disk.modFile` and `Disk.testFiles`). When the mod file lies in the generated directory as `<m>.rs` and some YAML file's module name is `m` (for instance `mod` from `../tests/mod.yml`), that file's test file is the mod file itself. That aliasing is not modelled.
- The concrete test-file lemmas (`ExpectedTestFiles`) state the fragments written, not the rendered Rust text the test compares, because the templates are not modelled.
- `generate_test_file` never closes or flushes files, so write buffering is not modelled. Canonicalization is an oracle on `Env`.
- Descriptions of the generation test's YAML data are taken to be the ones its expected output names, because the test data files are not part of this model.
