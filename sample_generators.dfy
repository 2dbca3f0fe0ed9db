/**
 * The two test generators and the factory that the test generator's own test plugs into the
 * engine (test-generator/src/test/generate_tests.rs), and what that test expects them to
 * produce for its test data.
 *
 * Both generators write through `write!` with a template; a written fragment is modelled as
 * the template it uses and the arguments it fills in. The template texts are not modelled.
 */
module SampleGenerators {
  import opened Wrappers
  import opened Text
  import opened Naming
  import opened Generation

  /** One filled-in template. */
  datatype Fragment =
    | TestHeader(testCaseType: string, path: string)                 // sample_test_header
    | SampleBody(name: string, index: nat)                           // sample_test_body
    | IgnoreBody(name: string, skipReason: string, feature: string)  // ignore_body_template
    | AltBody(name: string, index: nat)                              // alt_sample_test_body

  /** Which writes of the generated test file fail, and why. */
  type Faults = Fragment -> Option<Cause>

  /** Every write succeeds. */
  ghost predicate NoFaults(faults: Faults) {
    forall f :: faults(f).None?
  }

  /** `write!(file, template, ...).map_err(|e| Error::Io(context, e))`. */
  function Written(f: Fragment, faults: Faults, context: string): Emit<Fragment>
  {
    match faults(f)
    case None => Write(f)
    case Some(cause) => Fail(Io(context, cause))
  }

  /** The headers: the source passes fixed paths and ignores the canonicalized one. */
  const SampleHeader: Fragment := TestHeader("SampleTestCase", "test/path")
  const AltHeader: Fragment := TestHeader("AltSampleTestCase", "alt/path")

  /** The panic message of the alt generator. */
  const AltSkipPanic: string := "alt tests should not have skip_reasons"

  /**
   * The sample generator's fragment for the case at position `index`: an ignored stub with the
   * skip reason, or a body that looks the case up by its index.
   */
  function SampleFragment<I, E, O>(index: nat, c: YamlTestCase<I, E, O>): Fragment
  {
    var name := SanitizeDescription(c.description);
    if c.skipReason.Some? then IgnoreBody(name, c.skipReason.value, "sample") else SampleBody(name, index)
  }

  /** The sample generator's step for one case. */
  function SampleCase<I, E, O>(faults: Faults, index: nat, c: YamlTestCase<I, E, O>): Emit<Fragment>
  {
    Written(SampleFragment(index, c), faults, "failed to write")
  }

  /** The alt generator's step for one case: it panics on a case with a skip reason. */
  function AltCase<I, E, O>(faults: Faults, index: nat, c: YamlTestCase<I, E, O>): Emit<Fragment>
  {
    if c.skipReason.Some? then Abort(AltSkipPanic)
    else Written(AltBody(SanitizeDescription(c.description), index), faults, "failed to write")
  }

  /**
   * `TestTestGenerator`. `source` says what reading a YAML file as sample test cases gives;
   * the two generators read different case types, which the model merges into one type and
   * tells apart by their sources.
   */
  function SampleGenerator<I, E, O>(source: string -> Source<YamlTestCase<I, E, O>>, faults: Faults)
    : Generator<YamlTestCase<I, E, O>, Fragment>
  {
    Generator(
      canonical => Written(SampleHeader, faults, "failed to write header"),
      (index, c) => SampleCase(faults, index, c),
      path => ParseYamlTestFile(path, source(path)))
  }

  /** `AltTestTestGenerator`. */
  function AltGenerator<I, E, O>(source: string -> Source<YamlTestCase<I, E, O>>, faults: Faults)
    : Generator<YamlTestCase<I, E, O>, Fragment>
  {
    Generator(
      canonical => Written(AltHeader, faults, "failed to write header"),
      (index, c) => AltCase(faults, index, c),
      path => ParseYamlTestFile(path, source(path)))
  }

  /** `TestTestGeneratorFactory::create_test_generator`. */
  function TestFactory<I, E, O>(sampleSource: string -> Source<YamlTestCase<I, E, O>>,
                                altSource: string -> Source<YamlTestCase<I, E, O>>,
                                faults: Faults): Factory<YamlTestCase<I, E, O>, Fragment>
  {
    path => if Contains(path, "alt") then Ok(AltGenerator(altSource, faults)) else Ok(SampleGenerator(sampleSource, faults))
  }

  // ---------------------------------------------------------------------------------------
  // The factory

  /**
   * The factory never fails, so never reports an unknown test type. A path that contains
   * `alt` gets the generator that writes the alt header and panics on skipped cases; every
   * other path gets the one that writes the sample header and stubs skipped cases out.
   */
  lemma FactoryDispatch<I, E, O>(sampleSource: string -> Source<YamlTestCase<I, E, O>>,
                                 altSource: string -> Source<YamlTestCase<I, E, O>>,
                                 faults: Faults, path: string, canonical: string, index: nat,
                                 c: YamlTestCase<I, E, O>)
    ensures var r := TestFactory(sampleSource, altSource, faults)(path);
            && r.Ok?
            && r.value.header(canonical) ==
                 Written(if Contains(path, "alt") then AltHeader else SampleHeader, faults, "failed to write header")
            && (c.skipReason.Some? ==> (r.value.testCase(index, c).Abort? <==> Contains(path, "alt")))
            && r.value.parse(path) ==
                 ParseYamlTestFile(path, if Contains(path, "alt") then altSource(path) else sampleSource(path))
  {
  }

  // ---------------------------------------------------------------------------------------
  // The sample generator's output

  /**
   * What the sample generator writes for `cases` after its header when no write fails: for
   * each case, in order, the stub carrying its skip reason or the body carrying its position.
   */
  function SampleBodies<I, E, O>(cases: seq<YamlTestCase<I, E, O>>): (ws: seq<Fragment>)
    ensures |ws| == |cases|
    ensures forall j | 0 <= j < |cases| :: !ws[j].TestHeader? && ws[j].name == SanitizeDescription(cases[j].description)
    ensures forall j | 0 <= j < |cases| :: ws[j].SampleBody? <==> cases[j].skipReason.None?
    ensures forall j | 0 <= j < |cases| :: ws[j].SampleBody? ==> ws[j].index == j
    ensures forall j | 0 <= j < |cases| :: ws[j].IgnoreBody? ==>
              ws[j] == IgnoreBody(ws[j].name, cases[j].skipReason.value, "sample")
  {
    seq(|cases|, j requires 0 <= j < |cases| => SampleFragment(j, cases[j]))
  }

  /** With no failing write, the sample generator writes the fragment of its case. */
  lemma SampleCaseWrites<I, E, O>(source: string -> Source<YamlTestCase<I, E, O>>, faults: Faults,
                                  index: nat, c: YamlTestCase<I, E, O>)
    requires NoFaults(faults)
    ensures SampleGenerator(source, faults).testCase(index, c) == Write(SampleFragment(index, c))
  {
    assert faults(SampleFragment(index, c)).None?;
  }

  /** A generator that writes the sample fragment of every case writes `SampleBodies`. */
  lemma SampleFragmentsAre<I, E, O>(g: Generator<YamlTestCase<I, E, O>, Fragment>, cases: seq<YamlTestCase<I, E, O>>)
    requires forall j | 0 <= j < |cases| :: g.testCase(j, cases[j]) == Write(SampleFragment(j, cases[j]))
    ensures Fragments(g, cases, 0, |cases|) == SampleBodies(cases)
  {
    var ws := Fragments(g, cases, 0, |cases|);
    var bs := SampleBodies(cases);
    forall j | 0 <= j < |cases| ensures ws[j] == bs[j] {
    }
  }

  /** With no failing write, the sample generator writes every case. */
  lemma SampleWritesAll<I, E, O>(source: string -> Source<YamlTestCase<I, E, O>>, faults: Faults,
                                 cases: seq<YamlTestCase<I, E, O>>)
    requires NoFaults(faults)
    ensures FirstStop(SampleGenerator(source, faults), cases, 0) == |cases|
    ensures Fragments(SampleGenerator(source, faults), cases, 0, |cases|) == SampleBodies(cases)
  {
    var g := SampleGenerator(source, faults);
    forall j | 0 <= j < |cases| ensures g.testCase(j, cases[j]) == Write(SampleFragment(j, cases[j])) {
      SampleCaseWrites(source, faults, j, cases[j]);
    }
    SampleFragmentsAre(g, cases);
  }

  /**
   * A sample YAML file generated into a fresh test file, with every step succeeding: the
   * module's mod entry is added, and the test file holds the header exactly once, first, then
   * `SampleBodies` of the parsed cases.
   */
  lemma SampleFileContents<I, E, O>(source: string -> Source<YamlTestCase<I, E, O>>, faults: Faults,
                                    env: Env, path: string, name: string, d: Disk<Fragment>)
    requires NoFaults(faults)
    requires env.modWrite(name).None? && env.openTestFile(TestFileName(name)).None?
    requires env.canonicalize(path).Ok? && source(path).WellFormed?
    requires TestFileName(name) !in d.testFiles
    ensures var (d', o) := TestFileEffect(SampleGenerator(source, faults), env, path, name, d);
            && o == Success
            && d'.modFile == d.modFile + [PubMod(name)]
            && TestFileName(name) in d'.testFiles
            && d'.testFiles[TestFileName(name)] == [SampleHeader] + SampleBodies(source(path).file.tests)
  {
    var g := SampleGenerator(source, faults);
    assert faults(SampleHeader).None?;
    TestFileContents(g, env, path, name, d);
    ModEntryFirst(g, env, path, name, d);
    SampleWritesAll(source, faults, source(path).file.tests);
  }

  // ---------------------------------------------------------------------------------------
  // The alt generator's output

  /** The first position from `from` on whose case has a skip reason, or `|cases|`. */
  function FirstSkip<I, E, O>(cases: seq<YamlTestCase<I, E, O>>, from: nat): (k: nat)
    requires from <= |cases|
    ensures from <= k <= |cases|
    ensures forall j | from <= j < k :: cases[j].skipReason.None?
    ensures k < |cases| ==> cases[k].skipReason.Some?
    decreases |cases| - from
  {
    if from == |cases| || cases[from].skipReason.Some? then from else FirstSkip(cases, from + 1)
  }

  /** What the alt generator writes for cases without skip reasons: one body per case, in order. */
  function AltBodies<I, E, O>(cases: seq<YamlTestCase<I, E, O>>): (ws: seq<Fragment>)
    ensures |ws| == |cases|
    ensures forall j | 0 <= j < |cases| :: ws[j] == AltBody(SanitizeDescription(cases[j].description), j)
  {
    seq(|cases|, j requires 0 <= j < |cases| => AltBody(SanitizeDescription(cases[j].description), j))
  }

  /** With no failing write, the alt generator writes the body of a case without a skip reason. */
  lemma AltCaseWrites<I, E, O>(source: string -> Source<YamlTestCase<I, E, O>>, faults: Faults,
                               index: nat, c: YamlTestCase<I, E, O>)
    requires NoFaults(faults) && c.skipReason.None?
    ensures AltGenerator(source, faults).testCase(index, c) == Write(AltBody(SanitizeDescription(c.description), index))
  {
    assert faults(AltBody(SanitizeDescription(c.description), index)).None?;
  }

  /** A generator that writes the alt body of every case before `k` writes `AltBodies` of them. */
  lemma AltFragmentsAre<I, E, O>(g: Generator<YamlTestCase<I, E, O>, Fragment>, cases: seq<YamlTestCase<I, E, O>>, k: nat)
    requires k <= |cases|
    requires forall j | 0 <= j < k :: g.testCase(j, cases[j]) == Write(AltBody(SanitizeDescription(cases[j].description), j))
    ensures Fragments(g, cases, 0, k) == AltBodies(cases[..k])
  {
    var ws := Fragments(g, cases, 0, k);
    var bs := AltBodies(cases[..k]);
    forall j | 0 <= j < k ensures ws[j] == bs[j] {
    }
  }

  /** With no failing write, the alt generator stops exactly at the first skipped case. */
  lemma AltStopsAtSkip<I, E, O>(source: string -> Source<YamlTestCase<I, E, O>>, faults: Faults,
                                cases: seq<YamlTestCase<I, E, O>>)
    requires NoFaults(faults)
    ensures FirstStop(AltGenerator(source, faults), cases, 0) == FirstSkip(cases, 0)
    ensures Fragments(AltGenerator(source, faults), cases, 0, FirstSkip(cases, 0)) ==
            AltBodies(cases[..FirstSkip(cases, 0)])
  {
    var g := AltGenerator(source, faults);
    var k := FirstSkip(cases, 0);
    forall j | 0 <= j < k ensures g.testCase(j, cases[j]) == Write(AltBody(SanitizeDescription(cases[j].description), j)) {
      AltCaseWrites(source, faults, j, cases[j]);
    }
    assert k < |cases| ==> !g.testCase(k, cases[k]).Write?;
    AltFragmentsAre(g, cases, k);
  }

  /**
   * An alt YAML file generated into a fresh test file, with every step up to the cases
   * succeeding: the test file holds the header, then the bodies of the cases before the first
   * skipped one; the generation succeeds when no case is skipped and panics otherwise.
   */
  lemma AltFileContents<I, E, O>(source: string -> Source<YamlTestCase<I, E, O>>, faults: Faults,
                                 env: Env, path: string, name: string, d: Disk<Fragment>)
    requires NoFaults(faults)
    requires env.modWrite(name).None? && env.openTestFile(TestFileName(name)).None?
    requires env.canonicalize(path).Ok? && source(path).WellFormed?
    requires TestFileName(name) !in d.testFiles
    ensures var (d', o) := TestFileEffect(AltGenerator(source, faults), env, path, name, d);
            var cases := source(path).file.tests;
            var k := FirstSkip(cases, 0);
            && d'.modFile == d.modFile + [PubMod(name)]
            && TestFileName(name) in d'.testFiles
            && d'.testFiles[TestFileName(name)] == [AltHeader] + AltBodies(cases[..k])
            && o == (if k == |cases| then Success else Panic(AltSkipPanic))
  {
    var g := AltGenerator(source, faults);
    var cases := source(path).file.tests;
    assert faults(AltHeader).None?;
    TestFileContents(g, env, path, name, d);
    ModEntryFirst(g, env, path, name, d);
    AltStopsAtSkip(source, faults, cases);
  }

  // ---------------------------------------------------------------------------------------
  // The test data and the expected output of the generator's test

  /**
   * A description made of clauses of words: ' ' between the words of a clause and ", "
   * between clauses.
   */
  function Description(clauses: seq<seq<string>>): string {
    Join(Clauses(clauses, " "), ", ")
  }

  /** The function name the test expects for such a description: '_' and "__" instead. */
  function ExpectedName(clauses: seq<seq<string>>): string {
    Join(Clauses(clauses, "_"), "__")
  }

  /** The clauses, each with its words joined by `sep`. */
  function Clauses(clauses: seq<seq<string>>, sep: string): (cs: seq<string>)
    ensures |cs| == |clauses| && forall i | 0 <= i < |clauses| :: cs[i] == Join(clauses[i], sep)
  {
    seq(|clauses|, i requires 0 <= i < |clauses| => Join(clauses[i], sep))
  }

  /** Every word of every clause is made of identifier chars. */
  predicate PlainClauses(clauses: seq<seq<string>>) {
    forall i, k | 0 <= i < |clauses| && 0 <= k < |clauses[i]| :: Plain(clauses[i][k])
  }

  /** A description of plain words is sanitized into the expected name. */
  lemma SanitizeClauses(clauses: seq<seq<string>>)
    requires PlainClauses(clauses)
    ensures SanitizeDescription(Description(clauses)) == ExpectedName(clauses)
  {
    var spaced, joined := Clauses(clauses, " "), Clauses(clauses, "_");
    forall i | 0 <= i < |clauses|
      ensures NoRuleChars(spaced[i]) && ReplaceAny(spaced[i], Separators, "_") == joined[i]
    {
      SanitizeWords(clauses[i]);
    }
    SpaceAndComma();
    SanitizeJoin(spaced, joined, ", ", "__");
  }

  /**
   * The descriptions of the sample test file:
   * `Test with no skip_reason, no options, and a single expectation`,
   * `Test with skip_reason` (skipped with the reason `skip reason: test`),
   * `Test with no options and multiple expectations`, `Test with one option` and
   * `Test with two options`; and of the alt test file: `Alt test`.
   */
  const SingleExpectation: seq<seq<string>> :=
    [["Test", "with", "no", "skip_reason"], ["no", "options"], ["and", "a", "single", "expectation"]]
  const Skipped: seq<seq<string>> := [["Test", "with", "skip_reason"]]
  const MultipleExpectations: seq<seq<string>> := [["Test", "with", "no", "options", "and", "multiple", "expectations"]]
  const OneOption: seq<seq<string>> := [["Test", "with", "one", "option"]]
  const TwoOptions: seq<seq<string>> := [["Test", "with", "two", "options"]]
  const AltTest: seq<seq<string>> := [["Alt", "test"]]
  const SkipReason: string := "skip reason: test"

  /** The words of the first description are plain. */
  lemma PlainSingleExpectation()
    ensures PlainClauses(SingleExpectation)
  {
  }

  /** The words of the other descriptions are plain. */
  lemma PlainSkipped()
    ensures PlainClauses(Skipped)
  {
  }

  lemma PlainMultipleExpectations()
    ensures PlainClauses(MultipleExpectations)
  {
  }

  lemma PlainOneOption()
    ensures PlainClauses(OneOption)
  {
  }

  lemma PlainTwoOptions()
    ensures PlainClauses(TwoOptions)
  {
  }

  /** The first description is sanitized into the expected name. */
  lemma SingleExpectationName()
    ensures SanitizeDescription(Description(SingleExpectation)) == ExpectedName(SingleExpectation)
  {
    PlainSingleExpectation();
    SanitizeClauses(SingleExpectation);
  }

  /** So are the other descriptions of the sample test file. */
  lemma DescriptionNames()
    ensures SanitizeDescription(Description(Skipped)) == ExpectedName(Skipped)
    ensures SanitizeDescription(Description(MultipleExpectations)) == ExpectedName(MultipleExpectations)
    ensures SanitizeDescription(Description(OneOption)) == ExpectedName(OneOption)
    ensures SanitizeDescription(Description(TwoOptions)) == ExpectedName(TwoOptions)
  {
    PlainSkipped();
    PlainMultipleExpectations();
    PlainOneOption();
    PlainTwoOptions();
    SanitizeClauses(Skipped);
    SanitizeClauses(MultipleExpectations);
    SanitizeClauses(OneOption);
    SanitizeClauses(TwoOptions);
  }

  /** And the description of the alt test file. */
  lemma AltTestName()
    ensures SanitizeDescription(Description(AltTest)) == ExpectedName(AltTest)
  {
    assert PlainClauses(AltTest);
    SanitizeClauses(AltTest);
  }

  /**
   * The sample file as the test expects it after the header, for the five cases of the sample
   * test file, of which the second alone is skipped: functions named after the descriptions,
   * the second an ignored stub carrying its skip reason and no position, the others reading
   * `tests.get(k)` for their own positions 0, 2, 3 and 4.
   */
  lemma ExpectedSampleBodies<I, E, O>(cs: seq<YamlTestCase<I, E, O>>, reason: string)
    requires |cs| == 5
    requires cs[1].skipReason == Some(reason)
    requires cs[0].skipReason.None? && cs[2].skipReason.None? && cs[3].skipReason.None? && cs[4].skipReason.None?
    ensures var bs := SampleBodies(cs);
            && |bs| == 5
            && bs[0] == SampleBody(SanitizeDescription(cs[0].description), 0)
            && bs[1] == IgnoreBody(SanitizeDescription(cs[1].description), reason, "sample")
            && bs[2] == SampleBody(SanitizeDescription(cs[2].description), 2)
            && bs[3] == SampleBody(SanitizeDescription(cs[3].description), 3)
            && bs[4] == SampleBody(SanitizeDescription(cs[4].description), 4)
  {
  }

  /**
   * The alt file as the test expects it after the header, for the single case of the alt test
   * file: `Alt_test`, reading `tests.get(0)`, and the run does not panic.
   */
  lemma ExpectedAltBodies<I, E, O>(c: YamlTestCase<I, E, O>)
    requires c.description == Description(AltTest) && c.skipReason.None?
    ensures FirstSkip([c], 0) == 1
    ensures var bs := AltBodies([c]);
            |bs| == 1 && bs[0] == AltBody(ExpectedName(AltTest), 0)
  {
    AltTestName();
  }

  /** `src/test/testdata/sample_test_file.yml` and `src/test/testdata/alt_sample_test_file.yml`. */
  const SampleParts: seq<string> := ["src", "test", "testdata", "sample_test_file"]
  const AltParts: seq<string> := ["src", "test", "testdata", "alt_sample_test_file"]

  function SamplePath(): string { Join(SampleParts, "/") + ".yml" }
  function AltPath(): string { Join(AltParts, "/") + ".yml" }

  /** The parts of both paths are plain words. */
  lemma PlainParts()
    ensures forall i | 0 <= i < |SampleParts| :: Plain(SampleParts[i])
    ensures forall i | 0 <= i < |AltParts| :: Plain(AltParts[i])
  {
  }

  /** The sample test file's module is `src_test_testdata_sample_test_file`. */
  lemma SampleModuleName()
    ensures NormalizePath(SamplePath()) == Join(SampleParts, "_")
  {
    PlainParts();
    NormalizeWords(SampleParts);
  }

  /** The alt test file's module is `src_test_testdata_alt_sample_test_file`. */
  lemma AltModuleName()
    ensures NormalizePath(AltPath()) == Join(AltParts, "_")
  {
    PlainParts();
    NormalizeWords(AltParts);
  }

  /** The factory gives the sample test file the sample generator. */
  lemma SampleNotAlt()
    ensures !Contains(SamplePath(), "alt")
  {
    assert forall i | 0 <= i < |SampleParts| :: NoPair(SampleParts[i], 'a', 'l');
    NoPairJoin(SampleParts, '/', 'a', 'l');
    assert NoPair(".yml", 'a', 'l');
    NoPairAppend(Join(SampleParts, "/"), ".yml", 'a', 'l');
    NoPairAbsent(SamplePath(), "alt");
  }

  /** And the alt test file the alt generator. */
  lemma AltHasAlt()
    ensures Contains(AltPath(), "alt")
  {
    assert OccursAt(AltParts[3], "alt", 0);
    ContainsJoin(AltParts, "/", 3, "alt");
    ContainsFront(Join(AltParts, "/"), ".yml", "alt");
  }

  /** The text of the mod file with the two module entries in the given order. */
  function TwoModules(first: string, second: string): string {
    ModHeader + "pub mod " + first + ";\n" + "pub mod " + second + ";\n"
  }

  /**
   * A successful run, with the mod file inside the generated directory, over a tree holding the
   * two YAML files `p` then `q`, whose modules are `m` and `n`: the mod file is the header and
   * the two entries, in that order, and the generated directory holds exactly the two test files.
   */
  lemma RunOfTwo<C, W>(factory: Factory<C, W>, env: Env, root: Listing, d: Disk<W>, p: string, q: string, m: string, n: string)
    requires env.modInGeneratedDir
    requires YamlFilesOfRoot(root) == [p, q] && NormalizePath(p) == m && NormalizePath(q) == n
    requires RunEffect(factory, env, root, d).1.Success?
    ensures var d' := RunEffect(factory, env, root, d).0;
            && ModText(d'.modFile) == TwoModules(m, n)
            && d'.testFiles.Keys == {TestFileName(m), TestFileName(n)}
  {
    RunModFile(factory, env, root, d);
    RunTestFiles(factory, env, root, d);
    TwoFiles(p, q);
    assert RunEffect(factory, env, root, d).0.modFile == [Header, PubMod(m), PubMod(n)];
    TwoModulesText(m, n);
  }

  /** The entries and the test files of two YAML files. */
  lemma TwoFiles(p: string, q: string)
    ensures [Header] + ModLines([p, q]) == [Header, PubMod(NormalizePath(p)), PubMod(NormalizePath(q))]
    ensures GeneratedFiles([p, q]) == {TestFileName(NormalizePath(p)), TestFileName(NormalizePath(q))}
  {
    var ls := ModLines([p, q]);
    assert ls[0] == PubMod(NormalizePath(p)) && ls[1] == PubMod(NormalizePath(q));
  }

  /** The text of the header followed by two entries. */
  lemma TwoModulesText(x: string, y: string)
    ensures ModText([Header, PubMod(x), PubMod(y)]) == TwoModules(x, y)
  {
    ModText3(Header, PubMod(x), PubMod(y));
  }

  /**
   * The mod file the test accepts: when a run with the mod file inside the generated directory
   * succeeds and the walk meets exactly the two YAML test files, in either order, the mod file
   * is the header and the two entries in that order, and the generated directory holds exactly
   * the two test files.
   */
  lemma ExpectedModFile<C, W>(factory: Factory<C, W>, env: Env, root: Listing, d: Disk<W>)
    requires env.modInGeneratedDir
    requires YamlFilesOfRoot(root) == [SamplePath(), AltPath()] || YamlFilesOfRoot(root) == [AltPath(), SamplePath()]
    requires RunEffect(factory, env, root, d).1.Success?
    ensures var d' := RunEffect(factory, env, root, d).0;
            var s, a := Join(SampleParts, "_"), Join(AltParts, "_");
            && (ModText(d'.modFile) == TwoModules(s, a) || ModText(d'.modFile) == TwoModules(a, s))
            && d'.testFiles.Keys == {TestFileName(s), TestFileName(a)}
  {
    SampleModuleName();
    AltModuleName();
    RunOfEither(factory, env, root, d, SamplePath(), AltPath(), Join(SampleParts, "_"), Join(AltParts, "_"));
  }

  /** The same for two YAML files met in either order. */
  lemma RunOfEither<C, W>(factory: Factory<C, W>, env: Env, root: Listing, d: Disk<W>, p: string, q: string, m: string, n: string)
    requires env.modInGeneratedDir
    requires YamlFilesOfRoot(root) == [p, q] || YamlFilesOfRoot(root) == [q, p]
    requires NormalizePath(p) == m && NormalizePath(q) == n
    requires RunEffect(factory, env, root, d).1.Success?
    ensures var d' := RunEffect(factory, env, root, d).0;
            && (ModText(d'.modFile) == TwoModules(m, n) || ModText(d'.modFile) == TwoModules(n, m))
            && d'.testFiles.Keys == {TestFileName(m), TestFileName(n)}
  {
    if YamlFilesOfRoot(root) == [p, q] {
      RunOfTwo(factory, env, root, d, p, q, m, n);
    } else {
      RunOfTwo(factory, env, root, d, q, p, n, m);
    }
  }

  /** The two modules differ: only the alt one contains `alt`. */
  lemma ModuleNamesDiffer()
    ensures Join(SampleParts, "_") != Join(AltParts, "_")
  {
    assert forall i | 0 <= i < |SampleParts| :: NoPair(SampleParts[i], 'a', 'l');
    NoPairJoin(SampleParts, '_', 'a', 'l');
    NoPairAbsent(Join(SampleParts, "_"), "alt");
    assert OccursAt(AltParts[3], "alt", 0);
    ContainsJoin(AltParts, "_", 3, "alt");
  }

  /**
   * A successful run over exactly two YAML files `p` and `q` with different modules, met in
   * either order: the test file of each holds what a successful generation writes into a
   * fresh file.
   */
  lemma RunOfEitherContents<C, W>(factory: Factory<C, W>, env: Env, root: Listing, d: Disk<W>, p: string, q: string)
    requires YamlFilesOfRoot(root) == [p, q] || YamlFilesOfRoot(root) == [q, p]
    requires NormalizePath(p) != NormalizePath(q)
    requires RunEffect(factory, env, root, d).1.Success?
    ensures var files := RunEffect(factory, env, root, d).0.testFiles;
            && TestFileName(NormalizePath(p)) in files
            && FreshTestFile(factory, env, p) == Some(files[TestFileName(NormalizePath(p))])
            && TestFileName(NormalizePath(q)) in files
            && FreshTestFile(factory, env, q) == Some(files[TestFileName(NormalizePath(q))])
  {
    TestFileNameInjective(NormalizePath(p), NormalizePath(q));
    TestFileNameInjective(NormalizePath(q), NormalizePath(p));
    assert DistinctNames(YamlFilesOfRoot(root));
    RunFileContents(factory, env, root, d);
    assert p in YamlFilesOfRoot(root) && q in YamlFilesOfRoot(root);
  }

  /**
   * The sample test file, generated with no failing write: its source is well formed, and its
   * test file is the sample header, then the stub or body of each case in order.
   */
  lemma SampleFresh<I, E, O>(sampleSource: string -> Source<YamlTestCase<I, E, O>>,
                             altSource: string -> Source<YamlTestCase<I, E, O>>,
                             faults: Faults, env: Env, text: seq<Fragment>)
    requires NoFaults(faults)
    requires FreshTestFile(TestFactory(sampleSource, altSource, faults), env, SamplePath()) == Some(text)
    ensures sampleSource(SamplePath()).WellFormed?
    ensures text == [SampleHeader] + SampleBodies(sampleSource(SamplePath()).file.tests)
  {
    SampleNotAlt();
    var g := SampleGenerator(sampleSource, faults);
    assert TestFactory(sampleSource, altSource, faults)(SamplePath()) == Ok(g);
    assert faults(SampleHeader).None?;
    var parsed := g.parse(SamplePath());
    SampleWritesAll(sampleSource, faults, parsed.value.tests);
  }

  /**
   * The alt test file, generated with no failing write: its source is well formed, none of its
   * cases is skipped, and its test file is the alt header, then the body of each case in order.
   */
  lemma AltFresh<I, E, O>(sampleSource: string -> Source<YamlTestCase<I, E, O>>,
                          altSource: string -> Source<YamlTestCase<I, E, O>>,
                          faults: Faults, env: Env, text: seq<Fragment>)
    requires NoFaults(faults)
    requires FreshTestFile(TestFactory(sampleSource, altSource, faults), env, AltPath()) == Some(text)
    ensures altSource(AltPath()).WellFormed?
    ensures FirstSkip(altSource(AltPath()).file.tests, 0) == |altSource(AltPath()).file.tests|
    ensures text == [AltHeader] + AltBodies(altSource(AltPath()).file.tests)
  {
    AltHasAlt();
    var g := AltGenerator(altSource, faults);
    assert TestFactory(sampleSource, altSource, faults)(AltPath()) == Ok(g);
    assert faults(AltHeader).None?;
    var cases := g.parse(AltPath()).value.tests;
    AltStopsAtSkip(altSource, faults, cases);
    assert cases[..|cases|] == cases;
  }

  /**
   * The test files the test reads back: when a run of the test's factory with no failing write
   * succeeds and the walk meets exactly the two YAML test files, in either order, the sample
   * module's test file is the sample header and then `SampleBodies` of the sample file's cases,
   * and the alt module's is the alt header and then `AltBodies` of the alt file's cases, of
   * which none is skipped.
   */
  lemma ExpectedTestFiles<I, E, O>(sampleSource: string -> Source<YamlTestCase<I, E, O>>,
                                   altSource: string -> Source<YamlTestCase<I, E, O>>,
                                   faults: Faults, env: Env, root: Listing, d: Disk<Fragment>)
    requires NoFaults(faults)
    requires YamlFilesOfRoot(root) == [SamplePath(), AltPath()] || YamlFilesOfRoot(root) == [AltPath(), SamplePath()]
    requires RunEffect(TestFactory(sampleSource, altSource, faults), env, root, d).1.Success?
    ensures var files := RunEffect(TestFactory(sampleSource, altSource, faults), env, root, d).0.testFiles;
            var s, a := TestFileName(Join(SampleParts, "_")), TestFileName(Join(AltParts, "_"));
            && sampleSource(SamplePath()).WellFormed? && altSource(AltPath()).WellFormed?
            && s in files && files[s] == [SampleHeader] + SampleBodies(sampleSource(SamplePath()).file.tests)
            && FirstSkip(altSource(AltPath()).file.tests, 0) == |altSource(AltPath()).file.tests|
            && a in files && files[a] == [AltHeader] + AltBodies(altSource(AltPath()).file.tests)
  {
    var factory := TestFactory(sampleSource, altSource, faults);
    SampleModuleName();
    AltModuleName();
    ModuleNamesDiffer();
    RunOfEitherContents(factory, env, root, d, SamplePath(), AltPath());
    var files := RunEffect(factory, env, root, d).0.testFiles;
    SampleFresh(sampleSource, altSource, faults, env, files[TestFileName(Join(SampleParts, "_"))]);
    AltFresh(sampleSource, altSource, faults, env, files[TestFileName(Join(AltParts, "_"))]);
  }

  /** The text of a mod file of three chunks. */
  lemma ModText3(a: ModChunk, b: ModChunk, c: ModChunk)
    ensures ModText([a, b, c]) == ChunkText(a) + ChunkText(b) + ChunkText(c)
  {
    var m := [a, b, c];
    assert m[..2] == [a, b];
    assert [a, b][..1] == [a];
    assert [a][..0] == [];
    assert ModText([a]) == ChunkText(a);
    assert ModText([a, b]) == ChunkText(a) + ChunkText(b);
    assert ModText(m) == ModText([a, b]) + ChunkText(c);
  }
}
