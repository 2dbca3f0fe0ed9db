/**
 * The test-generation engine of test-generator/src/lib.rs: `generate_tests` prepares the
 * output directory and the mod file, `traverse` walks the directory of YAML test files, and
 * `TestGenerator::generate_test_file` turns one YAML file into one generated Rust test file.
 *
 * The file system is modelled by what the engine can observe of it: the answers it gets from
 * the operating system (an `Env` value and a `Dir` tree) and what it writes (a `Disk` value:
 * the chunks appended to the mod file and the fragments appended to each generated test file).
 * A generator writes fragments of some type `W`; template texts are left abstract.
 */
module Generation {
  import opened Wrappers
  import opened Paths
  import opened Naming

  // ---------------------------------------------------------------------------------------
  // Data model

  /** The cause carried by an `io::Error` or a deserialization error, kept as its message. */
  type Cause = string

  /** The errors of the library. */
  datatype Error =
    | CannotDeserializeYaml(path: string, cause: Cause)
    | Io(context: string, cause: Cause)
    | Multiple(errors: seq<Error>)
    | UnknownTestType(path: string)

  /** A YAML test file: the list under its top-level `tests` key. */
  datatype YamlTestFile<T> = YamlTestFile(tests: seq<T>)

  /** A YAML test case; `input`, `expectations` and `options` vary by test type. */
  datatype YamlTestCase<I, E, O> =
    YamlTestCase(description: string, skipReason: Option<string>, input: I, expectations: E, options: O)

  /** The options of a test type that has none. */
  datatype NoOptions = NoOptions

  /** How a run of the engine ends: `Ok(())`, `Err(error)`, or a panic with its message. */
  datatype Outcome = Success | Failure(error: Error) | Panic(message: string)

  /** What one write of a generator does: append a fragment, return an error, or panic. */
  datatype Emit<W> = Write(fragment: W) | Fail(error: Error) | Abort(message: string)

  /** The outcome of a write that did not append anything. */
  function Stopped<W>(e: Emit<W>): (o: Outcome)
    requires !e.Write?
    ensures !o.Success?
    ensures e.Fail? <==> o.Failure?
  {
    match e
    case Fail(err) => Failure(err)
    case Abort(m) => Panic(m)
  }

  /** What opening and reading a YAML test file finds. */
  datatype Source<T> = Unopenable(cause: Cause) | Malformed(cause: Cause) | WellFormed(file: YamlTestFile<T>)

  /** `parse_yaml_test_file`: the file at `path` deserialized, or why it could not be. */
  function ParseYamlTestFile<T>(path: string, source: Source<T>): (r: Result<YamlTestFile<T>, Error>)
    ensures source.WellFormed? <==> r.Ok?
    ensures r.Ok? ==> r.value == source.file
    ensures source.Unopenable? ==> r == Err(Io("failed to open test file '" + path + "'", source.cause))
    ensures source.Malformed? ==> r == Err(CannotDeserializeYaml(path, source.cause))
  {
    match source
    case Unopenable(cause) => Err(Io("failed to open test file '" + path + "'", cause))
    case Malformed(cause) => Err(CannotDeserializeYaml(path, cause))
    case WellFormed(file) => Ok(file)
  }

  /**
   * A `TestGenerator`: what writing the header for a canonicalized path does, what writing
   * the test case at an index does, and how it parses the YAML file at a path.
   */
  datatype Generator<!C, W> = Generator(
    header: string -> Emit<W>,
    testCase: (nat, C) -> Emit<W>,
    parse: string -> Result<YamlTestFile<C>, Error>)

  /** A `TestGeneratorFactory`: the generator for the YAML file at a path, or an error. */
  type Factory<!C, W> = string -> Result<Generator<C, W>, Error>

  /**
   * The answers of the operating system: whether removing and creating the generated
   * directory and opening the mod file fail (and why), whether writing the mod entry for a
   * module name fails, whether opening a generated test file fails, and what canonical path a
   * YAML path has. `modInGeneratedDir` says whether the mod file lives in the generated
   * directory, so that removing that directory removes it too.
   */
  datatype Env = Env(
    removeDir: Option<Cause>,
    createDir: Option<Cause>,
    openModFile: Option<Cause>,
    modWrite: string -> Option<Cause>,
    openTestFile: string -> Option<Cause>,
    canonicalize: string -> Result<string, Cause>,
    modInGeneratedDir: bool)

  /** A directory listing (`read_dir`), or why it could not be read. */
  datatype Listing = Listed(dir: Dir) | Unlistable(cause: Cause)

  /** The entries of a directory, in the order the listing yields them. */
  datatype Dir = Dir(entries: seq<DirEntry>)

  /** One entry of a listing: unreadable, or a path with its file type. */
  datatype DirEntry = Unreadable(cause: Cause) | Entry(path: string, kind: EntryKind)

  /** The file type of an entry; `Other` is anything neither a directory nor a regular file. */
  datatype EntryKind = UnknownType(cause: Cause) | Directory(listing: Listing) | RegularFile | Other

  /** What the engine has written: the chunks of the mod file and each generated test file. */
  datatype Disk<W> = Disk(modFile: seq<ModChunk>, testFiles: map<string, seq<W>>)

  /** What one write to the mod file adds: the boilerplate header, or the entry of one module. */
  datatype ModChunk = Header | PubMod(name: string)

  /** The boilerplate the mod file gets at the start of each run. */
  const ModHeader: string := "#![cfg_attr(rustfmt, rustfmt_skip)]\n#![allow(clippy::all)]\n"

  /** The text of a chunk; a module's entry is `pub mod <name>;` on a line of its own. */
  function ChunkText(c: ModChunk): string
  {
    match c
    case Header => ModHeader
    case PubMod(name) => "pub mod " + name + ";\n"
  }

  /** The text of the mod file. */
  function ModText(chunks: seq<ModChunk>): string
  {
    if chunks == [] then [] else ModText(chunks[..|chunks| - 1]) + ChunkText(chunks[|chunks| - 1])
  }

  /** The file a module is generated into, inside the generated directory. */
  function TestFileName(name: string): string {
    name + ".rs"
  }

  /** `.yml` and `.yaml` are the extensions of YAML test files. */
  predicate IsYamlPath(path: string) {
    Extension(path) == Some("yml") || Extension(path) == Some("yaml")
  }

  // ---------------------------------------------------------------------------------------
  // Specification of each operation, as its effect on the disk and its outcome

  /** `write_mod_entry`: appends the module's line to the mod file, unless the write fails. */
  function ModEntryEffect<W>(env: Env, name: string, d: Disk<W>): (Disk<W>, Outcome)
  {
    match env.modWrite(name)
    case None => (d.(modFile := d.modFile + [PubMod(name)]), Success)
    case Some(cause) => (d, Failure(Io("failed to write '" + name + "' to mod file", cause)))
  }

  /** The first index from `from` on whose test case does not write, or `|cases|`. */
  function FirstStop<C, W>(g: Generator<C, W>, cases: seq<C>, from: nat): (k: nat)
    requires from <= |cases|
    ensures from <= k <= |cases|
    ensures forall j | from <= j < k :: g.testCase(j, cases[j]).Write?
    ensures k < |cases| ==> !g.testCase(k, cases[k]).Write?
    decreases |cases| - from
  {
    if from == |cases| then from
    else if g.testCase(from, cases[from]).Write? then FirstStop(g, cases, from + 1)
    else from
  }

  /** The fragments the test cases at `from..stop` write, in index order. */
  function Fragments<C, W>(g: Generator<C, W>, cases: seq<C>, from: nat, stop: nat): (ws: seq<W>)
    requires from <= stop <= |cases|
    requires forall j | from <= j < stop :: g.testCase(j, cases[j]).Write?
    ensures |ws| == stop - from
    ensures forall j | 0 <= j < stop - from :: ws[j] == g.testCase(from + j, cases[from + j]).fragment
    decreases stop - from
  {
    if from == stop then [] else [g.testCase(from, cases[from]).fragment] + Fragments(g, cases, from + 1, stop)
  }

  /** The loop over the parsed cases, from index `from` on, appending to `content`. */
  function CasesEffect<C, W>(g: Generator<C, W>, cases: seq<C>, from: nat, content: seq<W>): (seq<W>, Outcome)
    requires from <= |cases|
    decreases |cases| - from
  {
    if from == |cases| then (content, Success)
    else
      var e := g.testCase(from, cases[from]);
      if e.Write? then CasesEffect(g, cases, from + 1, content + [e.fragment])
      else (content, Stopped(e))
  }

  /** Appends `ws` to the test file `file`, which must exist. */
  function AppendTo<W>(d: Disk<W>, file: string, ws: seq<W>): Disk<W>
    requires file in d.testFiles
  {
    d.(testFiles := d.testFiles[file := d.testFiles[file] + ws])
  }

  /** `generate_test_file` for the YAML file at `originalPath`, whose module is `name`. */
  function TestFileEffect<C, W>(g: Generator<C, W>, env: Env, originalPath: string, name: string, d: Disk<W>): (Disk<W>, Outcome)
  {
    var (d1, o1) := ModEntryEffect(env, name, d);
    if !o1.Success? then (d1, o1)
    else
      var file := TestFileName(name);
      match env.openTestFile(file)
      case Some(cause) => (d1, Failure(Io("failed to create test file " + file, cause)))
      case None =>
        var d2 := if file in d1.testFiles then d1 else d1.(testFiles := d1.testFiles[file := []]);
        match env.canonicalize(originalPath)
        case Err(cause) => (d2, Failure(Io("failed to canonicalize path '" + originalPath + "'", cause)))
        case Ok(canonical) =>
          var h := g.header(canonical);
          if !h.Write? then (d2, Stopped(h))
          else
            var d3 := AppendTo(d2, file, [h.fragment]);
            match g.parse(originalPath)
            case Err(err) => (d3, Failure(err))
            case Ok(parsed) =>
              var (content, o) := CasesEffect(g, parsed.tests, 0, d3.testFiles[file]);
              (d3.(testFiles := d3.testFiles[file := content]), o)
  }

  /** One pass of the loop of `traverse`: what handling the listing entry `entry` does. */
  function EntryEffect<C, W>(factory: Factory<C, W>, env: Env, entry: DirEntry, d: Disk<W>): (Disk<W>, Outcome)
    decreases entry
  {
    match entry
    case Unreadable(cause) => (d, Failure(Io("failed to open test directory entry", cause)))
    case Entry(path, UnknownType(cause)) =>
      (d, Failure(Io("failed to get test directory entry file type", cause)))
    case Entry(path, Directory(Unlistable(cause))) =>
      (d, Failure(Io("failed to read test subdirectory '" + path + "'", cause)))
    case Entry(path, Directory(Listed(sub))) => TraverseEffect(factory, env, sub, 0, d)
    case Entry(path, RegularFile) =>
      if !IsYamlPath(path) then (d, Success)
      else (
        match factory(path)
        case Err(err) => (d, Failure(err))
        case Ok(g) => TestFileEffect(g, env, path, NormalizePath(path), d))
    case Entry(path, Other) => (d, Success)
  }

  /** `traverse` over the entries of `dir` from the `i`-th on, stopping at the first error. */
  function TraverseEffect<C, W>(factory: Factory<C, W>, env: Env, dir: Dir, i: nat, d: Disk<W>): (Disk<W>, Outcome)
    requires i <= |dir.entries|
    decreases dir, |dir.entries| - i
  {
    if i == |dir.entries| then (d, Success)
    else
      var (d', o) := EntryEffect(factory, env, dir.entries[i], d);
      if o.Success? then TraverseEffect(factory, env, dir, i + 1, d') else (d', o)
  }

  /**
   * The set-up match of `generate_tests` on the results of removing and of creating the
   * generated directory: nothing, or the error to return.
   */
  function SetupOutcome(remove: Option<Cause>, create: Option<Cause>): (r: Option<Error>)
  {
    match (remove, create)
    case (_, None) => None
    case (None, Some(why)) => Some(Io("failed to create generated test directory", why))
    case (Some(deleteErr), Some(createErr)) =>
      Some(Multiple([Io("failed to delete generated test directory", deleteErr),
                     Io("failed to create generated test directory", createErr)]))
  }

  /**
   * What removing and re-creating the generated directory leaves: once either succeeded the
   * directory is empty, which removes the mod file too when it lives there.
   */
  function SetupEffect<W>(env: Env, d: Disk<W>): Disk<W>
  {
    if env.removeDir.None? || env.createDir.None? then
      Disk(if env.modInGeneratedDir then [] else d.modFile, map[])
    else d
  }

  /** `generate_tests` over the test directory listing `root`. */
  function RunEffect<C, W>(factory: Factory<C, W>, env: Env, root: Listing, d: Disk<W>): (Disk<W>, Outcome)
  {
    var d0 := SetupEffect(env, d);
    match SetupOutcome(env.removeDir, env.createDir)
    case Some(err) => (d0, Failure(err))
    case None =>
      match env.openModFile
      case Some(cause) => (d0, Failure(Io("failed to create or open generated mod file", cause)))
      case None =>
        var d1 := d0.(modFile := d0.modFile + [Header]);
        match root
        case Unlistable(cause) => (d1, Failure(Io("failed to read test directory", cause)))
        case Listed(dir) => TraverseEffect(factory, env, dir, 0, d1)
  }

  // ---------------------------------------------------------------------------------------
  // Properties of one generated test file

  /**
   * The loop over the cases appends the fragments of the cases up to the first one that does
   * not write, in index order, and ends as that case does (or succeeds when there is none).
   */
  lemma {:induction false} CasesEffectSpec<C, W>(g: Generator<C, W>, cases: seq<C>, from: nat, content: seq<W>)
    requires from <= |cases|
    ensures var k := FirstStop(g, cases, from);
            var (content', o) := CasesEffect(g, cases, from, content);
            && content' == content + Fragments(g, cases, from, k)
            && (o.Success? <==> k == |cases|)
            && (k < |cases| ==> o == Stopped(g.testCase(k, cases[k])))
    decreases |cases| - from
  {
    if from < |cases| && g.testCase(from, cases[from]).Write? {
      var w := g.testCase(from, cases[from]).fragment;
      CasesEffectSpec(g, cases, from + 1, content + [w]);
      var k := FirstStop(g, cases, from);
      assert content + [w] + Fragments(g, cases, from + 1, k) == content + Fragments(g, cases, from, k);
    } else if from < |cases| {
      assert content + [] == content;
    } else {
      assert content + [] == content;
    }
  }

  /** What the test file held before `generate_test_file` opened it (it is created empty). */
  function Prior<W>(d: Disk<W>, file: string): seq<W> {
    if file in d.testFiles then d.testFiles[file] else []
  }

  /**
   * The mod entry is written before anything else: when it fails nothing at all is written,
   * and once it is written it stays, whatever happens to the test file afterwards.
   */
  lemma ModEntryFirst<C, W>(g: Generator<C, W>, env: Env, originalPath: string, name: string, d: Disk<W>)
    ensures var (d', o) := TestFileEffect(g, env, originalPath, name, d);
            && (env.modWrite(name).Some? ==>
                  d' == d && o == Failure(Io("failed to write '" + name + "' to mod file", env.modWrite(name).value)))
            && (env.modWrite(name).None? ==> d'.modFile == d.modFile + [PubMod(name)])
  {
  }

  /** Generating one test file touches no generated test file but its own. */
  lemma TestFileOnlyItsOwn<C, W>(g: Generator<C, W>, env: Env, originalPath: string, name: string, d: Disk<W>)
    ensures var d' := TestFileEffect(g, env, originalPath, name, d).0;
            && d'.testFiles.Keys <= d.testFiles.Keys + {TestFileName(name)}
            && forall f | f in d.testFiles && f != TestFileName(name) :: f in d'.testFiles && d'.testFiles[f] == d.testFiles[f]
  {
  }

  /**
   * Once the mod entry, the test file, the canonical path, the header and the parse have all
   * succeeded, the test file holds what it held before, then the header exactly once, then the
   * fragments of the cases with indices `0..k-1` in parsed order, where `k` is the first case
   * that does not write; the run succeeds exactly when there is no such case.
   */
  lemma TestFileContents<C, W>(g: Generator<C, W>, env: Env, originalPath: string, name: string, d: Disk<W>)
    requires env.modWrite(name).None? && env.openTestFile(TestFileName(name)).None?
    requires env.canonicalize(originalPath).Ok?
    requires g.header(env.canonicalize(originalPath).value).Write?
    requires g.parse(originalPath).Ok?
    ensures var (d', o) := TestFileEffect(g, env, originalPath, name, d);
            var file := TestFileName(name);
            var cases := g.parse(originalPath).value.tests;
            var k := FirstStop(g, cases, 0);
            && file in d'.testFiles
            && d'.testFiles[file] ==
                 Prior(d, file) + [g.header(env.canonicalize(originalPath).value).fragment] + Fragments(g, cases, 0, k)
            && (o.Success? <==> k == |cases|)
            && (k < |cases| ==> o == Stopped(g.testCase(k, cases[k])))
  {
    var file := TestFileName(name);
    var d1 := d.(modFile := d.modFile + [PubMod(name)]);
    var d2 := if file in d1.testFiles then d1 else d1.(testFiles := d1.testFiles[file := []]);
    var h := g.header(env.canonicalize(originalPath).value).fragment;
    var d3 := AppendTo(d2, file, [h]);
    assert d3.testFiles[file] == Prior(d, file) + [h];
    CasesEffectSpec(g, g.parse(originalPath).value.tests, 0, d3.testFiles[file]);
  }

  /**
   * The header is written before the file is parsed: when the parse fails, the test file holds
   * the header and nothing after it, and the parse error is returned.
   */
  lemma HeaderBeforeParse<C, W>(g: Generator<C, W>, env: Env, originalPath: string, name: string, d: Disk<W>)
    requires env.modWrite(name).None? && env.openTestFile(TestFileName(name)).None?
    requires env.canonicalize(originalPath).Ok?
    requires g.header(env.canonicalize(originalPath).value).Write?
    requires g.parse(originalPath).Err?
    ensures var (d', o) := TestFileEffect(g, env, originalPath, name, d);
            var file := TestFileName(name);
            && file in d'.testFiles
            && d'.testFiles[file] == Prior(d, file) + [g.header(env.canonicalize(originalPath).value).fragment]
            && o == Failure(g.parse(originalPath).error)
  {
  }

  /**
   * `generate_test_file` succeeds exactly when every step does: the mod entry, opening the
   * test file, canonicalizing the path, the header, the parse, and every test case.
   */
  lemma TestFileSuccess<C, W>(g: Generator<C, W>, env: Env, originalPath: string, name: string, d: Disk<W>)
    ensures TestFileEffect(g, env, originalPath, name, d).1.Success? <==>
            && env.modWrite(name).None? && env.openTestFile(TestFileName(name)).None?
            && env.canonicalize(originalPath).Ok?
            && g.header(env.canonicalize(originalPath).value).Write?
            && g.parse(originalPath).Ok?
            && forall j | 0 <= j < |g.parse(originalPath).value.tests| ::
                 g.testCase(j, g.parse(originalPath).value.tests[j]).Write?
  {
    if && env.modWrite(name).None? && env.openTestFile(TestFileName(name)).None?
       && env.canonicalize(originalPath).Ok?
       && g.header(env.canonicalize(originalPath).value).Write?
       && g.parse(originalPath).Ok?
    {
      TestFileContents(g, env, originalPath, name, d);
    } else if env.modWrite(name).None? && env.openTestFile(TestFileName(name)).None? && env.canonicalize(originalPath).Ok? {
      assert g.header(env.canonicalize(originalPath).value).Write? ==> g.parse(originalPath).Err?;
    }
  }

  // ---------------------------------------------------------------------------------------
  // Properties of the walk over the test directory

  /** The YAML test files below the entries of `dir` from the `i`-th on, in the order of the walk. */
  function YamlFilesIn(dir: Dir, i: nat): seq<string>
    requires i <= |dir.entries|
    decreases dir, |dir.entries| - i
  {
    if i == |dir.entries| then [] else YamlFilesOf(dir.entries[i]) + YamlFilesIn(dir, i + 1)
  }

  /** The YAML test files an entry is or holds: a YAML regular file, or those of a subdirectory. */
  function YamlFilesOf(entry: DirEntry): seq<string>
    decreases entry
  {
    match entry
    case Entry(path, Directory(Listed(sub))) => YamlFilesIn(sub, 0)
    case Entry(path, RegularFile) => if IsYamlPath(path) then [path] else []
    case _ => []
  }

  /** The mod entries of the YAML files `paths`, one per file, in the same order. */
  function ModLines(paths: seq<string>): (lines: seq<ModChunk>)
  {
    seq(|paths|, k requires 0 <= k < |paths| => PubMod(NormalizePath(paths[k])))
  }

  /** The mod entries of two lists of files are those of the first, then those of the second. */
  lemma ModLinesAppend(a: seq<string>, b: seq<string>)
    ensures ModLines(a + b) == ModLines(a) + ModLines(b)
  {
    assert ModLines(a + b) == ModLines(a) + ModLines(b);
  }

  /** The generated test files of the YAML files `paths`. */
  function GeneratedFiles(paths: seq<string>): set<string>
  {
    set p | p in paths :: TestFileName(NormalizePath(p))
  }

  /** One test file adds its own mod entry or none, and adds it whenever it succeeds. */
  lemma TestFileModEntry<C, W>(g: Generator<C, W>, env: Env, originalPath: string, name: string, d: Disk<W>)
    ensures var (d', o) := TestFileEffect(g, env, originalPath, name, d);
            && (d'.modFile == d.modFile || d'.modFile == d.modFile + [PubMod(name)])
            && (o.Success? ==> d'.modFile == d.modFile + [PubMod(name)])
  {
    ModEntryFirst(g, env, originalPath, name, d);
    TestFileSuccess(g, env, originalPath, name, d);
  }

  /** A YAML file adds its own mod entry, or none when it fails. */
  lemma FileModLines<C, W>(factory: Factory<C, W>, env: Env, path: string, d: Disk<W>)
    ensures var (d', o) := EntryEffect(factory, env, Entry(path, RegularFile), d);
            var lines := ModLines(YamlFilesOf(Entry(path, RegularFile)));
            && (d'.modFile == d.modFile || d'.modFile == d.modFile + lines)
            && (o.Success? ==> d'.modFile == d.modFile + lines)
  {
    if IsYamlPath(path) {
      ModLinesOne(path);
      if factory(path).Ok? {
        TestFileModEntry(factory(path).value, env, path, NormalizePath(path), d);
      }
    }
  }

  /** The mod entries of a single YAML file. */
  lemma ModLinesOne(path: string)
    ensures ModLines([path]) == [PubMod(NormalizePath(path))]
  {
  }

  /** `after` is `before` followed by some first elements of `lines`. */
  predicate WroteSome(before: seq<ModChunk>, after: seq<ModChunk>, lines: seq<ModChunk>) {
    before <= after && after[|before|..] <= lines
  }

  /** Writing none or all of the lines writes some first lines of them. */
  lemma PrefixWritten(before: seq<ModChunk>, after: seq<ModChunk>, lines: seq<ModChunk>)
    requires after == before || after == before + lines
    ensures WroteSome(before, after, lines)
  {
    if after == before {
      assert after[|before|..] == [];
    } else {
      assert after[|before|..] == lines;
    }
  }

  /**
   * The walk writes the mod entries of the YAML files it meets in the order it meets them: it
   * writes the entries of some first files, and of all of them when it succeeds.
   */
  lemma {:induction false} EntryModLines<C, W>(factory: Factory<C, W>, env: Env, entry: DirEntry, d: Disk<W>)
    ensures var (d', o) := EntryEffect(factory, env, entry, d);
            && WroteSome(d.modFile, d'.modFile, ModLines(YamlFilesOf(entry)))
            && (o.Success? ==> d'.modFile == d.modFile + ModLines(YamlFilesOf(entry)))
    decreases entry
  {
    match entry
    case Entry(path, Directory(Listed(sub))) =>
      TraverseModLines(factory, env, sub, 0, d);
    case Entry(path, RegularFile) =>
      FileModLines(factory, env, path, d);
      var d' := EntryEffect(factory, env, entry, d).0;
      PrefixWritten(d.modFile, d'.modFile, ModLines(YamlFilesOf(entry)));
    case _ =>
      assert d.modFile[|d.modFile|..] == [];
  }

  /** Writing a prefix of `a`, then, if all of `a`, a prefix of `b`, writes a prefix of `a + b`. */
  lemma PrefixesCompose(m0: seq<ModChunk>, m1: seq<ModChunk>, m2: seq<ModChunk>, a: seq<ModChunk>, b: seq<ModChunk>, whole: bool)
    requires WroteSome(m0, m1, a)
    requires whole ==> m1 == m0 + a && WroteSome(m1, m2, b)
    ensures WroteSome(m0, if whole then m2 else m1, a + b)
  {
    if whole {
      assert m2[|m0|..] == a + m2[|m1|..];
    }
  }

  lemma {:induction false} TraverseModLines<C, W>(factory: Factory<C, W>, env: Env, dir: Dir, i: nat, d: Disk<W>)
    requires i <= |dir.entries|
    ensures var (d', o) := TraverseEffect(factory, env, dir, i, d);
            && WroteSome(d.modFile, d'.modFile, ModLines(YamlFilesIn(dir, i)))
            && (o.Success? ==> d'.modFile == d.modFile + ModLines(YamlFilesIn(dir, i)))
    decreases dir, |dir.entries| - i
  {
    if i < |dir.entries| {
      var entry := dir.entries[i];
      var (d1, o1) := EntryEffect(factory, env, entry, d);
      EntryModLines(factory, env, entry, d);
      var a, b := YamlFilesOf(entry), YamlFilesIn(dir, i + 1);
      ModLinesAppend(a, b);
      if o1.Success? {
        TraverseModLines(factory, env, dir, i + 1, d1);
        var d2 := TraverseEffect(factory, env, dir, i + 1, d1).0;
        PrefixesCompose(d.modFile, d1.modFile, d2.modFile, ModLines(a), ModLines(b), true);
      } else {
        PrefixesCompose(d.modFile, d1.modFile, d1.modFile, ModLines(a), ModLines(b), false);
      }
    } else {
      assert d.modFile[|d.modFile|..] == [];
    }
  }

  /** A regular file has a generated test file exactly when it is a YAML file. */
  lemma FileGenerates(path: string)
    ensures GeneratedFiles(YamlFilesOf(Entry(path, RegularFile))) ==
            if IsYamlPath(path) then {TestFileName(NormalizePath(path))} else {}
  {
    if IsYamlPath(path) {
      GeneratedOne(path);
    }
  }

  /** The generated test files of one YAML file. */
  lemma GeneratedOne(path: string)
    ensures GeneratedFiles([path]) == {TestFileName(NormalizePath(path))}
  {
    assert path in [path];
  }

  /** One test file adds its own generated test file or none, and adds it when it succeeds. */
  lemma TestFileKeys<C, W>(g: Generator<C, W>, env: Env, originalPath: string, name: string, d: Disk<W>)
    ensures var (d', o) := TestFileEffect(g, env, originalPath, name, d);
            && d.testFiles.Keys <= d'.testFiles.Keys <= d.testFiles.Keys + {TestFileName(name)}
            && (o.Success? ==> TestFileName(name) in d'.testFiles)
  {
  }

  /** A YAML file adds its own generated test file or none, and adds it when it succeeds. */
  lemma FileTestFiles<C, W>(factory: Factory<C, W>, env: Env, path: string, d: Disk<W>)
    ensures var (d', o) := EntryEffect(factory, env, Entry(path, RegularFile), d);
            var files := GeneratedFiles(YamlFilesOf(Entry(path, RegularFile)));
            && d.testFiles.Keys <= d'.testFiles.Keys
            && d'.testFiles.Keys <= d.testFiles.Keys + files
            && (o.Success? ==> files <= d'.testFiles.Keys)
  {
    FileGenerates(path);
    if IsYamlPath(path) && factory(path).Ok? {
      TestFileKeys(factory(path).value, env, path, NormalizePath(path), d);
    }
  }

  /**
   * The walk only ever adds generated test files, and only the files of the YAML files it
   * meets; when it succeeds, every one of those exists.
   */
  lemma {:induction false} EntryTestFiles<C, W>(factory: Factory<C, W>, env: Env, entry: DirEntry, d: Disk<W>)
    ensures var (d', o) := EntryEffect(factory, env, entry, d);
            && d.testFiles.Keys <= d'.testFiles.Keys
            && d'.testFiles.Keys <= d.testFiles.Keys + GeneratedFiles(YamlFilesOf(entry))
            && (o.Success? ==> GeneratedFiles(YamlFilesOf(entry)) <= d'.testFiles.Keys)
    decreases entry
  {
    match entry
    case Entry(path, Directory(Listed(sub))) =>
      TraverseTestFiles(factory, env, sub, 0, d);
    case Entry(path, RegularFile) =>
      FileTestFiles(factory, env, path, d);
    case _ =>
  }

  lemma {:induction false} TraverseTestFiles<C, W>(factory: Factory<C, W>, env: Env, dir: Dir, i: nat, d: Disk<W>)
    requires i <= |dir.entries|
    ensures var (d', o) := TraverseEffect(factory, env, dir, i, d);
            && d.testFiles.Keys <= d'.testFiles.Keys
            && d'.testFiles.Keys <= d.testFiles.Keys + GeneratedFiles(YamlFilesIn(dir, i))
            && (o.Success? ==> GeneratedFiles(YamlFilesIn(dir, i)) <= d'.testFiles.Keys)
    decreases dir, |dir.entries| - i
  {
    if i < |dir.entries| {
      var entry := dir.entries[i];
      var (d1, o1) := EntryEffect(factory, env, entry, d);
      EntryTestFiles(factory, env, entry, d);
      var a, b := YamlFilesOf(entry), YamlFilesIn(dir, i + 1);
      assert GeneratedFiles(a + b) == GeneratedFiles(a) + GeneratedFiles(b);
      if o1.Success? {
        TraverseTestFiles(factory, env, dir, i + 1, d1);
      }
    }
  }

  /**
   * Splitting the entries at `k`: the walk from `i` is the walk over the entries before `k`,
   * followed, when that succeeds, by the walk from `k` on the disk it leaves.
   */
  lemma {:induction false} TraverseSplit<C, W>(factory: Factory<C, W>, env: Env, dir: Dir, i: nat, k: nat, d: Disk<W>)
    requires i <= k <= |dir.entries|
    ensures var (dk, ok) := TraverseEffect(factory, env, Dir(dir.entries[..k]), i, d);
            TraverseEffect(factory, env, dir, i, d) ==
              if ok.Success? then TraverseEffect(factory, env, dir, k, dk) else (dk, ok)
    decreases k - i
  {
    if i < k {
      assert dir.entries[..k][i] == dir.entries[i];
      var (d1, o1) := EntryEffect(factory, env, dir.entries[i], d);
      if o1.Success? {
        TraverseSplit(factory, env, dir, i + 1, k, d1);
      }
    }
  }

  /**
   * The walk stops at the first entry that fails. When the entries before `k` all succeed, one
   * after the other, and entry `k` then fails, the walk ends with entry `k`'s outcome and the
   * disk it leaves, and is the same as the walk over the entries up to `k` alone: no later
   * entry is handled. When entry `k` succeeds, the walk goes on from `k + 1` on its disk.
   */
  lemma TraverseStopsAt<C, W>(factory: Factory<C, W>, env: Env, dir: Dir, k: nat, d: Disk<W>)
    requires k < |dir.entries|
    requires TraverseEffect(factory, env, Dir(dir.entries[..k]), 0, d).1.Success?
    ensures var dk := TraverseEffect(factory, env, Dir(dir.entries[..k]), 0, d).0;
            var (dk', ok) := EntryEffect(factory, env, dir.entries[k], dk);
            && (ok.Success? ==> TraverseEffect(factory, env, dir, 0, d) == TraverseEffect(factory, env, dir, k + 1, dk'))
            && (!ok.Success? ==> TraverseEffect(factory, env, dir, 0, d) == (dk', ok))
            && (!ok.Success? ==>
                  TraverseEffect(factory, env, dir, 0, d) == TraverseEffect(factory, env, Dir(dir.entries[..k + 1]), 0, d))
  {
    TraverseSplit(factory, env, dir, 0, k, d);
    var pre := Dir(dir.entries[..k + 1]);
    assert pre.entries[..k] == dir.entries[..k];
    assert pre.entries[k] == dir.entries[k];
    TraverseSplit(factory, env, pre, 0, k, d);
  }

  // ---------------------------------------------------------------------------------------
  // What the generated test files hold after a walk

  /**
   * What a successful `generate_test_file` with generator `g` writes into a fresh test file
   * for the YAML file at `path`: the header, then the fragment of every case in parsed order.
   * None when the path cannot be canonicalized, the header is not written, the parse fails or
   * some case does not write.
   */
  function FreshContent<C, W>(g: Generator<C, W>, env: Env, path: string): Option<seq<W>>
  {
    match env.canonicalize(path)
    case Err(_) => None
    case Ok(canonical) =>
      var h := g.header(canonical);
      if !h.Write? then None
      else
        match g.parse(path)
        case Err(_) => None
        case Ok(parsed) =>
          if FirstStop(g, parsed.tests, 0) < |parsed.tests| then None
          else Some([h.fragment] + Fragments(g, parsed.tests, 0, |parsed.tests|))
  }

  /** `FreshContent` with the generator the factory gives for `path`; None when it gives none. */
  function FreshTestFile<C, W>(factory: Factory<C, W>, env: Env, path: string): Option<seq<W>>
  {
    match factory(path)
    case Err(_) => None
    case Ok(g) => FreshContent(g, env, path)
  }

  /** No two of the YAML files `paths` have the same generated test file. */
  predicate DistinctNames(paths: seq<string>) {
    forall i, j | 0 <= i < j < |paths| :: TestFileName(NormalizePath(paths[i])) != TestFileName(NormalizePath(paths[j]))
  }

  /** The generated test file of each of `paths` exists and holds what `FreshTestFile` says. */
  ghost predicate HoldsFresh<C, W>(factory: Factory<C, W>, env: Env, paths: seq<string>, files: map<string, seq<W>>) {
    forall p | p in paths ::
      TestFileName(NormalizePath(p)) in files && FreshTestFile(factory, env, p) == Some(files[TestFileName(NormalizePath(p))])
  }

  /** Distinct names of a concatenation are distinct in each part, and the parts share none. */
  lemma DistinctSplit(a: seq<string>, b: seq<string>)
    requires DistinctNames(a + b)
    ensures DistinctNames(a) && DistinctNames(b) && GeneratedFiles(a) !! GeneratedFiles(b)
  {
    forall i, j | 0 <= i < j < |a|
      ensures TestFileName(NormalizePath(a[i])) != TestFileName(NormalizePath(a[j]))
    {
      assert (a + b)[i] == a[i] && (a + b)[j] == a[j];
    }
    forall i, j | 0 <= i < j < |b|
      ensures TestFileName(NormalizePath(b[i])) != TestFileName(NormalizePath(b[j]))
    {
      assert (a + b)[|a| + i] == b[i] && (a + b)[|a| + j] == b[j];
    }
    forall i, j | 0 <= i < |a| && 0 <= j < |b|
      ensures TestFileName(NormalizePath(a[i])) != TestFileName(NormalizePath(b[j]))
    {
      assert (a + b)[i] == a[i] && (a + b)[|a| + j] == b[j];
    }
  }

  /** A successful `generate_test_file` into a file that did not exist leaves `FreshContent` in it. */
  lemma TestFileFresh<C, W>(g: Generator<C, W>, env: Env, path: string, name: string, d: Disk<W>)
    requires TestFileName(name) !in d.testFiles
    ensures var (d', o) := TestFileEffect(g, env, path, name, d);
            && (o.Success? ==> TestFileName(name) in d'.testFiles && FreshContent(g, env, path) == Some(d'.testFiles[TestFileName(name)]))
            && forall f | f in d.testFiles :: f in d'.testFiles && d'.testFiles[f] == d.testFiles[f]
  {
    TestFileOnlyItsOwn(g, env, path, name, d);
    TestFileSuccess(g, env, path, name, d);
    if TestFileEffect(g, env, path, name, d).1.Success? {
      TestFileContents(g, env, path, name, d);
      var h := g.header(env.canonicalize(path).value).fragment;
      var cases := g.parse(path).value.tests;
      assert Prior(d, TestFileName(name)) + [h] == [h];
      assert FreshContent(g, env, path) == Some([h] + Fragments(g, cases, 0, |cases|));
    }
  }

  /** A YAML file generated successfully into a fresh test file holds `FreshTestFile`. */
  lemma FileFresh<C, W>(factory: Factory<C, W>, env: Env, path: string, d: Disk<W>)
    requires GeneratedFiles(YamlFilesOf(Entry(path, RegularFile))) !! d.testFiles.Keys
    ensures var (d', o) := EntryEffect(factory, env, Entry(path, RegularFile), d);
            o.Success? ==>
              && HoldsFresh(factory, env, YamlFilesOf(Entry(path, RegularFile)), d'.testFiles)
              && forall f | f in d.testFiles :: f in d'.testFiles && d'.testFiles[f] == d.testFiles[f]
  {
    if IsYamlPath(path) && factory(path).Ok? {
      var g, name := factory(path).value, NormalizePath(path);
      assert EntryEffect(factory, env, Entry(path, RegularFile), d) == TestFileEffect(g, env, path, name, d);
      assert YamlFilesOf(Entry(path, RegularFile)) == [path];
      GeneratedOne(path);
      assert TestFileName(name) in GeneratedFiles([path]);
      assert TestFileName(name) !in d.testFiles;
      TestFileFresh(g, env, path, name, d);
      var (d', o) := TestFileEffect(g, env, path, name, d);
      if o.Success? {
        HoldsFreshOne(factory, env, path, d'.testFiles);
      }
    }
  }

  /** The generated files of the rest of a walk are still absent after its first entry. */
  lemma FreshKeys(a: seq<string>, b: seq<string>, k0: set<string>, k1: set<string>)
    requires GeneratedFiles(a + b) !! k0 && GeneratedFiles(a) !! GeneratedFiles(b)
    requires k1 <= k0 + GeneratedFiles(a)
    ensures GeneratedFiles(a) !! k0 && GeneratedFiles(b) !! k1
  {
    assert GeneratedFiles(a + b) == GeneratedFiles(a) + GeneratedFiles(b);
  }

  /** `HoldsFresh` of one file. */
  lemma HoldsFreshOne<C, W>(factory: Factory<C, W>, env: Env, path: string, files: map<string, seq<W>>)
    requires TestFileName(NormalizePath(path)) in files
    requires FreshTestFile(factory, env, path) == Some(files[TestFileName(NormalizePath(path))])
    ensures HoldsFresh(factory, env, [path], files)
  {
  }

  /** `HoldsFresh` of two lists, the first kept unchanged while the second was written. */
  lemma HoldsFreshAppend<C, W>(factory: Factory<C, W>, env: Env, a: seq<string>, b: seq<string>,
                               m0: map<string, seq<W>>, m1: map<string, seq<W>>, m2: map<string, seq<W>>)
    requires HoldsFresh(factory, env, a, m1) && HoldsFresh(factory, env, b, m2)
    requires forall f | f in m0 :: f in m1 && m1[f] == m0[f]
    requires forall f | f in m1 :: f in m2 && m2[f] == m1[f]
    ensures HoldsFresh(factory, env, a + b, m2)
    ensures forall f | f in m0 :: f in m2 && m2[f] == m0[f]
  {
    forall p | p in a + b
      ensures TestFileName(NormalizePath(p)) in m2
      ensures FreshTestFile(factory, env, p) == Some(m2[TestFileName(NormalizePath(p))])
    {
      if p in a {
        assert TestFileName(NormalizePath(p)) in m1;
      }
    }
  }

  /**
   * A successful walk over YAML files whose generated test files are distinct and did not
   * exist before leaves each of them holding `FreshTestFile`, and every file that existed as
   * it was.
   */
  lemma {:induction false} EntryFresh<C, W>(factory: Factory<C, W>, env: Env, entry: DirEntry, d: Disk<W>)
    requires DistinctNames(YamlFilesOf(entry))
    requires GeneratedFiles(YamlFilesOf(entry)) !! d.testFiles.Keys
    ensures var (d', o) := EntryEffect(factory, env, entry, d);
            o.Success? ==>
              && HoldsFresh(factory, env, YamlFilesOf(entry), d'.testFiles)
              && forall f | f in d.testFiles :: f in d'.testFiles && d'.testFiles[f] == d.testFiles[f]
    decreases entry
  {
    match entry
    case Entry(path, Directory(Listed(sub))) =>
      TraverseFresh(factory, env, sub, 0, d);
    case Entry(path, RegularFile) =>
      FileFresh(factory, env, path, d);
    case _ =>
  }

  lemma {:induction false} TraverseFresh<C, W>(factory: Factory<C, W>, env: Env, dir: Dir, i: nat, d: Disk<W>)
    requires i <= |dir.entries|
    requires DistinctNames(YamlFilesIn(dir, i))
    requires GeneratedFiles(YamlFilesIn(dir, i)) !! d.testFiles.Keys
    ensures var (d', o) := TraverseEffect(factory, env, dir, i, d);
            o.Success? ==>
              && HoldsFresh(factory, env, YamlFilesIn(dir, i), d'.testFiles)
              && forall f | f in d.testFiles :: f in d'.testFiles && d'.testFiles[f] == d.testFiles[f]
    decreases dir, |dir.entries| - i
  {
    if i < |dir.entries| {
      var entry := dir.entries[i];
      var a, b := YamlFilesOf(entry), YamlFilesIn(dir, i + 1);
      assert YamlFilesIn(dir, i) == a + b;
      DistinctSplit(a, b);
      var (d1, o1) := EntryEffect(factory, env, entry, d);
      if o1.Success? {
        EntryTestFiles(factory, env, entry, d);
        FreshKeys(a, b, d.testFiles.Keys, d1.testFiles.Keys);
        EntryFresh(factory, env, entry, d);
        TraverseFresh(factory, env, dir, i + 1, d1);
        assert TraverseEffect(factory, env, dir, i, d) == TraverseEffect(factory, env, dir, i + 1, d1);
        var (d2, o2) := TraverseEffect(factory, env, dir, i + 1, d1);
        if o2.Success? {
          HoldsFreshAppend(factory, env, a, b, d.testFiles, d1.testFiles, d2.testFiles);
        }
      }
    }
  }

  // ---------------------------------------------------------------------------------------
  // Properties of a whole run

  /** The YAML files of the test directory listing `root` (none when it cannot be read). */
  function YamlFilesOfRoot(root: Listing): seq<string> {
    match root
    case Listed(dir) => YamlFilesIn(dir, 0)
    case Unlistable(_) => []
  }

  /**
   * A run fails at the set-up exactly when the generated directory cannot be created; it then
   * writes no header, and reports both errors when removing it failed as well.
   */
  lemma RunStopsAtSetup<C, W>(factory: Factory<C, W>, env: Env, root: Listing, d: Disk<W>)
    requires env.createDir.Some?
    ensures var (d', o) := RunEffect(factory, env, root, d);
            && d' == SetupEffect(env, d)
            && o.Failure?
            && (env.removeDir.Some? ==>
                  && d' == d
                  && o.error == Multiple([Io("failed to delete generated test directory", env.removeDir.value),
                                          Io("failed to create generated test directory", env.createDir.value)]))
            && (env.removeDir.None? ==> d'.testFiles == map[] && o.error == Io("failed to create generated test directory", env.createDir.value))
  {
  }

  /**
   * A successful run leaves the mod file with one header followed by the mod entries of every
   * YAML file, in the order of the walk; the mod file is opened for appending, so what it held
   * before stays unless it lives in the generated directory, which the set-up empties.
   */
  lemma RunModFile<C, W>(factory: Factory<C, W>, env: Env, root: Listing, d: Disk<W>)
    ensures var (d', o) := RunEffect(factory, env, root, d);
            o.Success? ==>
              && env.createDir.None? && env.openModFile.None? && root.Listed?
              && d'.modFile == (if env.modInGeneratedDir then [] else d.modFile) + [Header] + ModLines(YamlFilesOfRoot(root))
  {
    if SetupOutcome(env.removeDir, env.createDir).None? && env.openModFile.None? && root.Listed? {
      var d0 := SetupEffect(env, d);
      TraverseModLines(factory, env, root.dir, 0, d0.(modFile := d0.modFile + [Header]));
    }
  }

  /**
   * A successful run leaves exactly the generated test files of the YAML files in the
   * generated directory: the set-up has emptied it and the walk adds no other file.
   */
  lemma RunTestFiles<C, W>(factory: Factory<C, W>, env: Env, root: Listing, d: Disk<W>)
    ensures var (d', o) := RunEffect(factory, env, root, d);
            o.Success? ==> d'.testFiles.Keys == GeneratedFiles(YamlFilesOfRoot(root))
  {
    if SetupOutcome(env.removeDir, env.createDir).None? && env.openModFile.None? && root.Listed? {
      var d0 := SetupEffect(env, d);
      TraverseTestFiles(factory, env, root.dir, 0, d0.(modFile := d0.modFile + [Header]));
    }
  }

  /**
   * Running twice over the same tree: with the mod file in the generated directory the second
   * run leaves the same mod file as the first; otherwise the header and entries accumulate.
   */
  lemma RerunModFile<C, W>(factory: Factory<C, W>, env: Env, root: Listing, d: Disk<W>)
    ensures var (d1, o1) := RunEffect(factory, env, root, d);
            var (d2, o2) := RunEffect(factory, env, root, d1);
            var lines := [Header] + ModLines(YamlFilesOfRoot(root));
            o1.Success? && o2.Success? ==>
              d2.modFile == (if env.modInGeneratedDir then lines else d.modFile + lines + lines)
  {
    RunModFile(factory, env, root, d);
    RunModFile(factory, env, root, RunEffect(factory, env, root, d).0);
  }

  /**
   * Once the generated directory is created, the set-up never fails, whatever removing it
   * gave, and the directory is empty. The run then fails, before writing the header, when the
   * mod file cannot be opened; it fails after the header when the test directory cannot be
   * read; otherwise it is the walk of the test directory after the header.
   */
  lemma RunAfterSetup<C, W>(factory: Factory<C, W>, env: Env, root: Listing, d: Disk<W>)
    requires env.createDir.None?
    ensures SetupOutcome(env.removeDir, env.createDir).None?
    ensures var d0 := SetupEffect(env, d);
            var d1 := d0.(modFile := d0.modFile + [Header]);
            && d0 == Disk(if env.modInGeneratedDir then [] else d.modFile, map[])
            && (env.openModFile.Some? ==>
                  RunEffect(factory, env, root, d) ==
                    (d0, Failure(Io("failed to create or open generated mod file", env.openModFile.value))))
            && (env.openModFile.None? && root.Unlistable? ==>
                  RunEffect(factory, env, root, d) == (d1, Failure(Io("failed to read test directory", root.cause))))
            && (env.openModFile.None? && root.Listed? ==>
                  RunEffect(factory, env, root, d) == TraverseEffect(factory, env, root.dir, 0, d1))
  {
  }

  /** The test files and the outcome of generating one test file do not depend on the mod file. */
  lemma TestFileIgnoresModFile<C, W>(g: Generator<C, W>, env: Env, originalPath: string, name: string,
                                     d: Disk<W>, m: seq<ModChunk>)
    ensures var (a, o) := TestFileEffect(g, env, originalPath, name, d);
            var (b, p) := TestFileEffect(g, env, originalPath, name, d.(modFile := m));
            a.testFiles == b.testFiles && o == p
  {
  }

  /** Nor do those of one regular file. */
  lemma FileIgnoresModFile<C, W>(factory: Factory<C, W>, env: Env, path: string, d: Disk<W>, m: seq<ModChunk>)
    ensures var (a, o) := EntryEffect(factory, env, Entry(path, RegularFile), d);
            var (b, p) := EntryEffect(factory, env, Entry(path, RegularFile), d.(modFile := m));
            a.testFiles == b.testFiles && o == p
  {
    if IsYamlPath(path) && factory(path).Ok? {
      TestFileIgnoresModFile(factory(path).value, env, path, NormalizePath(path), d, m);
    }
  }

  /** Nor do those of the walk: the mod file is only ever appended to. */
  lemma {:induction false} EntryIgnoresModFile<C, W>(factory: Factory<C, W>, env: Env, entry: DirEntry,
                                                      d: Disk<W>, m: seq<ModChunk>)
    ensures var (a, o) := EntryEffect(factory, env, entry, d);
            var (b, p) := EntryEffect(factory, env, entry, d.(modFile := m));
            a.testFiles == b.testFiles && o == p
    decreases entry
  {
    match entry
    case Entry(path, Directory(Listed(sub))) =>
      TraverseIgnoresModFile(factory, env, sub, 0, d, m);
    case Entry(path, RegularFile) =>
      FileIgnoresModFile(factory, env, path, d, m);
    case _ =>
  }

  lemma {:induction false} TraverseIgnoresModFile<C, W>(factory: Factory<C, W>, env: Env, dir: Dir, i: nat,
                                                         d: Disk<W>, m: seq<ModChunk>)
    requires i <= |dir.entries|
    ensures var (a, o) := TraverseEffect(factory, env, dir, i, d);
            var (b, p) := TraverseEffect(factory, env, dir, i, d.(modFile := m));
            a.testFiles == b.testFiles && o == p
    decreases dir, |dir.entries| - i
  {
    if i < |dir.entries| {
      EntryIgnoresModFile(factory, env, dir.entries[i], d, m);
      var (a1, o1) := EntryEffect(factory, env, dir.entries[i], d);
      var (b1, p1) := EntryEffect(factory, env, dir.entries[i], d.(modFile := m));
      if o1.Success? {
        assert b1 == a1.(modFile := b1.modFile);
        TraverseIgnoresModFile(factory, env, dir, i + 1, a1, b1.modFile);
      }
    }
  }

  /**
   * Running twice over the same tree, with the same answers from the system: when the first
   * run succeeds, the second succeeds too and leaves the same generated test files.
   */
  lemma RerunTestFiles<C, W>(factory: Factory<C, W>, env: Env, root: Listing, d: Disk<W>)
    ensures var (d1, o1) := RunEffect(factory, env, root, d);
            var (d2, o2) := RunEffect(factory, env, root, d1);
            o1.Success? ==> o2 == o1 && d2.testFiles == d1.testFiles
  {
    var (d1, o1) := RunEffect(factory, env, root, d);
    if o1.Success? {
      RunModFile(factory, env, root, d);
      RunAfterSetup(factory, env, root, d);
      RunAfterSetup(factory, env, root, d1);
      var s0, s1 := SetupEffect(env, d), SetupEffect(env, d1);
      var h0, h1 := s0.(modFile := s0.modFile + [Header]), s1.(modFile := s1.modFile + [Header]);
      assert h1 == h0.(modFile := h1.modFile);
      TraverseIgnoresModFile(factory, env, root.dir, 0, h0, h1.modFile);
    }
  }

  /**
   * A successful run over YAML files with distinct generated test files leaves each of them
   * holding exactly what a successful generation writes into a fresh file: the set-up has
   * emptied the generated directory, so nothing from before remains in them.
   */
  lemma RunFileContents<C, W>(factory: Factory<C, W>, env: Env, root: Listing, d: Disk<W>)
    requires DistinctNames(YamlFilesOfRoot(root))
    ensures var (d', o) := RunEffect(factory, env, root, d);
            o.Success? ==> HoldsFresh(factory, env, YamlFilesOfRoot(root), d'.testFiles)
  {
    if SetupOutcome(env.removeDir, env.createDir).None? && env.openModFile.None? && root.Listed? {
      var d0 := SetupEffect(env, d);
      TraverseFresh(factory, env, root.dir, 0, d0.(modFile := d0.modFile + [Header]));
    }
  }

  /** Different module names have different test files. */
  lemma TestFileNameInjective(x: string, y: string)
    requires x != y
    ensures TestFileName(x) != TestFileName(y)
  {
    if |x| == |y| {
      assert TestFileName(x)[..|x|] == x && TestFileName(y)[..|y|] == y;
    }
  }

  // ---------------------------------------------------------------------------------------
  // The engine, writing to the files step by step

  /** The files the engine writes: the mod file and the generated test files. */
  class FileSystem<W(==)> {
    var modFile: seq<ModChunk>
    var testFiles: map<string, seq<W>>

    /** Files as they are found before a run. */
    constructor (modFile: seq<ModChunk>, testFiles: map<string, seq<W>>)
      ensures State() == Disk(modFile, testFiles)
    {
      this.modFile := modFile;
      this.testFiles := testFiles;
    }

    /** The current contents, as a value. */
    function State(): Disk<W>
      reads this
    {
      Disk(modFile, testFiles)
    }

    /** `write_mod_entry`. */
    method WriteModEntry(env: Env, name: string) returns (o: Outcome)
      modifies this
      ensures (State(), o) == ModEntryEffect(env, name, old(State()))
    {
      match env.modWrite(name)
      case None =>
        modFile := modFile + [PubMod(name)];
        o := Success;
      case Some(cause) =>
        o := Failure(Io("failed to write '" + name + "' to mod file", cause));
    }

    /** Appends one fragment to the open test file `file`. */
    method Append(file: string, w: W)
      requires file in testFiles
      modifies this
      ensures State() == AppendTo(old(State()), file, [w])
    {
      testFiles := testFiles[file := testFiles[file] + [w]];
    }

    /** `TestGenerator::generate_test_file` for the YAML file at `originalPath`, as module `name`. */
    method GenerateTestFile<C>(g: Generator<C, W>, env: Env, originalPath: string, name: string)
      returns (o: Outcome)
      modifies this
      ensures (State(), o) == TestFileEffect(g, env, originalPath, name, old(State()))
    {
      // Step 1: the mod entry, before anything else.
      o := WriteModEntry(env, name);
      if !o.Success? {
        return;
      }
      // Step 2: the test file, created if absent and opened for appending.
      var file := TestFileName(name);
      if env.openTestFile(file).Some? {
        o := Failure(Io("failed to create test file " + file, env.openTestFile(file).value));
        return;
      }
      if file !in testFiles {
        testFiles := testFiles[file := []];
      }
      // Step 3: the header, given the canonicalized path.
      var canonical := env.canonicalize(originalPath);
      if canonical.Err? {
        o := Failure(Io("failed to canonicalize path '" + originalPath + "'", canonical.error));
        return;
      }
      var h := g.header(canonical.value);
      if !h.Write? {
        o := Stopped(h);
        return;
      }
      Append(file, h.fragment);
      // Step 4: the parse.
      var parsed := g.parse(originalPath);
      if parsed.Err? {
        o := Failure(parsed.error);
        return;
      }
      // Step 5: one test case after the other, stopping at the first that does not write.
      o := WriteCases(g, file, parsed.value.tests);
    }

    /** The loop of `generate_test_file` over the parsed test cases, appending to `file`. */
    method WriteCases<C>(g: Generator<C, W>, file: string, cases: seq<C>) returns (o: Outcome)
      requires file in testFiles
      modifies this
      ensures file in testFiles && modFile == old(modFile)
      ensures testFiles == old(testFiles)[file := testFiles[file]]
      ensures (testFiles[file], o) == CasesEffect(g, cases, 0, old(testFiles[file]))
    {
      var i := 0;
      while i < |cases|
        invariant 0 <= i <= |cases|
        invariant file in testFiles && modFile == old(modFile)
        invariant testFiles == old(testFiles)[file := testFiles[file]]
        invariant CasesEffect(g, cases, 0, old(testFiles[file])) == CasesEffect(g, cases, i, testFiles[file])
      {
        var e := g.testCase(i, cases[i]);
        if !e.Write? {
          o := Stopped(e);
          return;
        }
        Append(file, e.fragment);
        i := i + 1;
      }
      o := Success;
    }

    /** `traverse` over the listing `dir`. */
    method Traverse<C>(factory: Factory<C, W>, env: Env, dir: Dir) returns (o: Outcome)
      modifies this
      ensures (State(), o) == TraverseEffect(factory, env, dir, 0, old(State()))
      decreases dir
    {
      var i := 0;
      while i < |dir.entries|
        invariant 0 <= i <= |dir.entries|
        invariant TraverseEffect(factory, env, dir, 0, old(State())) == TraverseEffect(factory, env, dir, i, State())
      {
        o := TraverseEntry(factory, env, dir.entries[i]);
        if !o.Success? {
          return;
        }
        i := i + 1;
      }
      o := Success;
    }

    /** The body of the loop of `traverse`, for one listing entry. */
    method TraverseEntry<C>(factory: Factory<C, W>, env: Env, entry: DirEntry) returns (o: Outcome)
      modifies this
      ensures (State(), o) == EntryEffect(factory, env, entry, old(State()))
      decreases entry
    {
      match entry {
        case Unreadable(cause) =>
          o := Failure(Io("failed to open test directory entry", cause));
        case Entry(path, UnknownType(cause)) =>
          o := Failure(Io("failed to get test directory entry file type", cause));
        case Entry(path, Directory(Unlistable(cause))) =>
          o := Failure(Io("failed to read test subdirectory '" + path + "'", cause));
        case Entry(path, Directory(Listed(sub))) =>
          o := Traverse(factory, env, sub);
        case Entry(path, RegularFile) =>
          o := Success;
          if IsYamlPath(path) {
            var made := factory(path);
            if made.Err? {
              return Failure(made.error);
            }
            o := GenerateTestFile(made.value, env, path, NormalizePath(path));
          }
        case Entry(path, Other) =>
          o := Success;
      }
    }

    /** `generate_tests` with the test directory listing `root`. */
    method GenerateTests<C>(factory: Factory<C, W>, env: Env, root: Listing) returns (o: Outcome)
      modifies this
      ensures (State(), o) == RunEffect(factory, env, root, old(State()))
    {
      // Both removing and creating the generated directory are attempted.
      if env.removeDir.None? || env.createDir.None? {
        if env.modInGeneratedDir {
          modFile := [];
        }
        testFiles := map[];
      }
      var setup := SetupOutcome(env.removeDir, env.createDir);
      if setup.Some? {
        return Failure(setup.value);
      }
      if env.openModFile.Some? {
        return Failure(Io("failed to create or open generated mod file", env.openModFile.value));
      }
      modFile := modFile + [Header];
      match root {
        case Unlistable(cause) =>
          o := Failure(Io("failed to read test directory", cause));
        case Listed(dir) =>
          o := Traverse(factory, env, dir);
      }
    }
  }
}
