/**
 * The data loader of data-loader/src/main.rs: it reads the test data files of a directory,
 * drops and then loads the collections and views they describe on a mongod, and writes their
 * schemas, to an ADF (Atlas Data Federation) instance in ADF mode and to the mongod otherwise.
 *
 * A database server is modelled by the operations the loader sends to it, in order (a
 * `Client`'s `trace`), and by its answer to each of them (an `Answer`), which may depend on
 * everything sent before. The files are modelled by what the loader can observe of them: a
 * directory listing and the results of opening and deserializing each file.
 */
module DataLoader {
  import opened Wrappers
  import opened Paths

  // ---------------------------------------------------------------------------------------
  // Data model

  /** The cause carried by an `io::Error`, a driver or a deserialization error, as its message. */
  type Cause = string

  /** A BSON value or document, kept uninterpreted (as its extended JSON text). */
  datatype Bson = Bson(extendedJson: string)

  /** An index in the driver's `IndexModel` format: a key document and optional options. */
  datatype IndexModel = IndexModel(key: Bson, options: Option<Bson>)

  /** `CollectionData`: a collection's name, the documents to insert and optional indexes. */
  datatype CollectionData = CollectionData(name: string, docs: seq<Bson>, indexes: Option<seq<IndexModel>>)

  /** `ViewDefinition`: the collection a view is on and its pipeline. */
  datatype ViewDefinition = ViewDefinition(viewOn: string, pipeline: seq<Bson>)

  /** `ViewData`: a view's name and, optionally, its definition. */
  datatype ViewData = ViewData(name: string, definition: Option<ViewDefinition>)

  /** `TestDataEntry`: one namespace of a test data file. */
  datatype TestDataEntry = TestDataEntry(
    db: string,
    collection: Option<CollectionData>,
    view: Option<ViewData>,
    schema: Option<Bson>)

  /** `TestDataFile`: the entries under the file's top-level `dataset` key. */
  datatype TestDataFile = TestDataFile(dataset: seq<TestDataEntry>)

  /** `DataLoaderError`. */
  datatype DataLoaderError =
    | FileSystem(cause: Cause)
    | Mongo(cause: Cause)
    | SerdeJson(cause: Cause)
    | SerdeYaml(cause: Cause)
    | InvalidViewOrCollectionDataEntry(path: string)

  /** An entry must name exactly one of a collection and a view. */
  predicate IsValid(e: TestDataEntry) {
    e.collection.Some? != e.view.Some?
  }

  /** All entries of all files are valid. */
  predicate AllValid(files: seq<TestDataFile>) {
    forall i, j | 0 <= i < |files| && 0 <= j < |files[i].dataset| :: IsValid(files[i].dataset[j])
  }

  /** How many entries the filter of `read_data_files` keeps: those with both or neither. */
  function InvalidCount(dataset: seq<TestDataEntry>): nat {
    if dataset == [] then 0
    else (if dataset[0].collection.Some? == dataset[0].view.Some? then 1 else 0) + InvalidCount(dataset[1..])
  }

  /** The count is zero exactly when every entry is valid. */
  lemma {:induction false} InvalidCountZero(dataset: seq<TestDataEntry>)
    ensures InvalidCount(dataset) == 0 <==> forall j | 0 <= j < |dataset| :: IsValid(dataset[j])
  {
    if dataset != [] {
      InvalidCountZero(dataset[1..]);
      assert forall j | 1 <= j < |dataset| :: dataset[j] == dataset[1..][j - 1];
    }
  }

  // ---------------------------------------------------------------------------------------
  // Reading the data files

  /** A directory listing (`fs::read_dir`), or why it could not be read. */
  datatype DataDir = Unlistable(cause: Cause) | Listed(items: seq<Item>)

  /** One item of a listing: an error, or the path of the entry. */
  datatype Item = BadItem(cause: Cause) | ItemPath(path: string)

  /**
   * What reading a file yields: whether it can be opened, and what YAML and JSON
   * deserialization make of its contents.
   */
  datatype Files = Files(
    open: string -> Option<Cause>,
    yaml: string -> Result<TestDataFile, Cause>,
    json: string -> Result<TestDataFile, Cause>)

  /** The two formats of test data files. */
  datatype Format = Yaml | Json

  /** The format a path's extension selects: `yml` and `yaml` are YAML, `json` is JSON. */
  function FormatOf(path: string): Option<Format> {
    match Extension(path)
    case None => None
    case Some(ext) =>
      if ext == "yml" || ext == "yaml" then Some(Yaml)
      else if ext == "json" then Some(Json)
      else None
  }

  /** Opens and deserializes the file at `path` in the given format. */
  function ReadFile(files: Files, path: string, format: Format): Result<TestDataFile, DataLoaderError> {
    match files.open(path)
    case Some(cause) => Err(FileSystem(cause))
    case None =>
      match format
      case Yaml => (match files.yaml(path) case Ok(f) => Ok(f) case Err(cause) => Err(SerdeYaml(cause)))
      case Json => (match files.json(path) case Ok(f) => Ok(f) case Err(cause) => Err(SerdeJson(cause)))
  }

  /**
   * One iteration of the loop of `read_data_files`: the file the item contributes (none for a
   * path without a test data extension), or the error that ends the read.
   */
  function ItemRead(files: Files, item: Item): Result<Option<TestDataFile>, DataLoaderError> {
    match item
    case BadItem(cause) => Err(FileSystem(cause))
    case ItemPath(path) =>
      match FormatOf(path)
      case None => Ok(None)
      case Some(format) =>
        match ReadFile(files, path, format)
        case Err(e) => Err(e)
        case Ok(f) =>
          if InvalidCount(f.dataset) > 0 then Err(InvalidViewOrCollectionDataEntry(path)) else Ok(Some(f))
  }

  /** The loop of `read_data_files` over `items`, one item after the other. */
  function ItemsRead(files: Files, items: seq<Item>): Result<seq<TestDataFile>, DataLoaderError> {
    if items == [] then Ok([])
    else
      match ItemsRead(files, items[..|items| - 1])
      case Err(e) => Err(e)
      case Ok(fs) =>
        match ItemRead(files, items[|items| - 1])
        case Err(e) => Err(e)
        case Ok(None) => Ok(fs)
        case Ok(Some(f)) => Ok(fs + [f])
  }

  /** `read_data_files`. */
  function DataFilesRead(files: Files, dir: DataDir): Result<seq<TestDataFile>, DataLoaderError> {
    match dir
    case Unlistable(cause) => Err(FileSystem(cause))
    case Listed(items) => ItemsRead(files, items)
  }

  /** `read_data_files` on the directory `dir`, as the loop of the source. */
  method ReadDataFiles(files: Files, dir: DataDir) returns (r: Result<seq<TestDataFile>, DataLoaderError>)
    ensures r == DataFilesRead(files, dir)
  {
    if dir.Unlistable? {
      return Err(FileSystem(dir.cause));
    }
    var items := dir.items;
    var testDataFiles := [];
    var i := 0;
    while i < |items|
      invariant 0 <= i <= |items|
      invariant ItemsRead(files, items[..i]) == Ok(testDataFiles)
    {
      match items[i]
      case BadItem(cause) =>
        ErrorAt(files, items, i, testDataFiles);
        return Err(FileSystem(cause));
      case ItemPath(path) =>
        var format := FormatOf(path);
        if format.None? {
          ReadOn(files, items, i, testDataFiles);
          i := i + 1;
          continue;
        }
        var file := ReadFile(files, path, format.value);
        if file.Err? {
          ErrorAt(files, items, i, testDataFiles);
          return Err(file.error);
        }
        if InvalidCount(file.value.dataset) > 0 {
          ErrorAt(files, items, i, testDataFiles);
          return Err(InvalidViewOrCollectionDataEntry(path));
        }
        ReadOn(files, items, i, testDataFiles);
        testDataFiles := testDataFiles + [file.value];
        i := i + 1;
    }
    assert items[..i] == items;
    r := Ok(testDataFiles);
  }

  /** An item that reads, after items that all did, adds its file, if any, to theirs. */
  lemma ReadOn(files: Files, items: seq<Item>, i: nat, fs: seq<TestDataFile>)
    requires i < |items| && ItemsRead(files, items[..i]) == Ok(fs) && ItemRead(files, items[i]).Ok?
    ensures ItemsRead(files, items[..i + 1]) ==
            Ok(if ItemRead(files, items[i]).value.Some? then fs + [ItemRead(files, items[i]).value.value] else fs)
  {
    assert items[..i + 1][..i] == items[..i];
  }

  /** An item that does not read, after items that all did, ends the whole read with its error. */
  lemma ErrorAt(files: Files, items: seq<Item>, i: nat, fs: seq<TestDataFile>)
    requires i < |items| && ItemsRead(files, items[..i]) == Ok(fs) && ItemRead(files, items[i]).Err?
    ensures ItemsRead(files, items) == Err(ItemRead(files, items[i]).error)
  {
    ReadSucceeds(files, items[..i]);
    assert forall j | 0 <= j < i :: items[..i][j] == items[j];
    FirstErrorAborts(files, items, i);
  }

  /** The files a listing contributes, in listing order: a reference for a read that succeeds. */
  function Accepted(files: Files, items: seq<Item>): seq<TestDataFile> {
    if items == [] then []
    else
      (match ItemRead(files, items[0]) case Ok(Some(f)) => [f] case _ => []) + Accepted(files, items[1..])
  }

  /** The files a read accepts, when the last item is appended to the listing. */
  lemma {:induction false} AcceptedSnoc(files: Files, items: seq<Item>, item: Item)
    ensures Accepted(files, items + [item]) ==
            Accepted(files, items) + (match ItemRead(files, item) case Ok(Some(f)) => [f] case _ => [])
    decreases |items|
  {
    if items == [] {
      assert [item][1..] == [];
    } else {
      assert (items + [item])[1..] == items[1..] + [item];
      AcceptedSnoc(files, items[1..], item);
    }
  }

  /**
   * A read succeeds exactly when every item of the listing reads without error, and it then
   * returns the accepted files in listing order.
   */
  lemma {:induction false} ReadSucceeds(files: Files, items: seq<Item>)
    ensures ItemsRead(files, items).Ok? <==> forall k | 0 <= k < |items| :: ItemRead(files, items[k]).Ok?
    ensures ItemsRead(files, items).Ok? ==> ItemsRead(files, items).value == Accepted(files, items)
    decreases |items|
  {
    if items != [] {
      var init, last := items[..|items| - 1], items[|items| - 1];
      ReadSucceeds(files, init);
      assert items == init + [last];
      AcceptedSnoc(files, init, last);
      assert forall k | 0 <= k < |init| :: init[k] == items[k];
    }
  }

  /** The first item that does not read ends the read with its error. */
  lemma {:induction false} FirstErrorAborts(files: Files, items: seq<Item>, k: nat)
    requires k < |items| && ItemRead(files, items[k]).Err?
    requires forall j | 0 <= j < k :: ItemRead(files, items[j]).Ok?
    ensures ItemsRead(files, items) == Err(ItemRead(files, items[k]).error)
    decreases |items|
  {
    var init := items[..|items| - 1];
    if k < |items| - 1 {
      assert forall j | 0 <= j < k :: init[j] == items[j];
      FirstErrorAborts(files, init, k);
    } else {
      ReadSucceeds(files, init);
      assert forall j | 0 <= j < |init| :: init[j] == items[j];
    }
  }

  /** Every file a successful read returns has only valid entries. */
  lemma {:induction false} ReadValid(files: Files, dir: DataDir)
    ensures DataFilesRead(files, dir).Ok? ==> AllValid(DataFilesRead(files, dir).value)
  {
    if dir.Listed? {
      ItemsValid(files, dir.items);
    }
  }

  lemma {:induction false} ItemsValid(files: Files, items: seq<Item>)
    ensures ItemsRead(files, items).Ok? ==> AllValid(ItemsRead(files, items).value)
    decreases |items|
  {
    if items != [] {
      var init, last := items[..|items| - 1], items[|items| - 1];
      ItemsValid(files, init);
      match ItemRead(files, last)
      case Ok(Some(f)) =>
        InvalidCountZero(f.dataset);
      case _ =>
    }
  }

  /**
   * A file that deserializes is rejected with `InvalidViewOrCollectionDataEntry` carrying its
   * path exactly when one of its entries is invalid, and accepted otherwise.
   */
  lemma InvalidEntryRejects(files: Files, path: string, format: Format, f: TestDataFile)
    requires FormatOf(path) == Some(format) && ReadFile(files, path, format) == Ok(f)
    ensures ItemRead(files, ItemPath(path)) == Err(InvalidViewOrCollectionDataEntry(path)) <==>
            exists j | 0 <= j < |f.dataset| :: !IsValid(f.dataset[j])
    ensures ItemRead(files, ItemPath(path)) == Ok(Some(f)) <==>
            forall j | 0 <= j < |f.dataset| :: IsValid(f.dataset[j])
  {
    InvalidCountZero(f.dataset);
  }

  /** The extension of `dir/stem.ext` selects YAML for `yml` and `yaml`, JSON for `json`, else nothing. */
  lemma FormatOfChild(dir: string, stem: string, ext: string)
    requires stem != [] && '/' !in stem && '/' !in ext && '.' !in ext
    requires stem != "." || ext != []
    ensures FormatOf(dir + "/" + stem + "." + ext) ==
            if ext == "yml" || ext == "yaml" then Some(Yaml) else if ext == "json" then Some(Json) else None
  {
    ExtensionOfChild(dir, stem, ext);
  }

  /** A file whose name has no '.' after its first char has no extension and is skipped. */
  lemma NoExtensionSkipped(files: Files, path: string)
    requires forall i | 0 < i < |FileName(path)| :: FileName(path)[i] != '.'
    ensures ItemRead(files, ItemPath(path)) == Ok(None)
  {
    ExtensionAbsent(path);
  }

  // ---------------------------------------------------------------------------------------
  // The operations sent to a server

  /** The collection of a database that holds the schemas the SQL engines read on a mongod. */
  const SchemaCollection: string := "__sql_schemas"

  /** The schema commands of ADF. */
  datatype Command =
    | SqlSetSchema(datasource: string, jsonSchema: Bson, version: int)
    | SqlGenerateSchema(setSchemas: bool, sampleNamespaces: seq<string>)

  /** A schema document for `__sql_schemas`; its `lastUpdated` time stamp is left out. */
  datatype SchemaDoc = SchemaDoc(id: string, kind: string, schema: Bson)

  /** One operation sent to a server, each naming the database it runs against. */
  datatype Op =
    | Drop(db: string, collection: string)
    | InsertMany(db: string, collection: string, docs: seq<Bson>)
    | CreateIndexes(db: string, collection: string, indexes: seq<IndexModel>)
    | CreateView(db: string, name: string, viewOn: string, pipeline: seq<Bson>)
    | InsertOne(db: string, collection: string, doc: SchemaDoc)
    | RunCommand(db: string, command: Command)

  /** How a server answers an operation, given the operations it received before: an error or none. */
  type Answer = (seq<Op>, Op) -> Option<Cause>

  /**
   * Sending `ops` one after the other to a server that has received `trace`: the new trace,
   * and the error of the first operation that fails, after which nothing more is sent.
   */
  function Issue(answer: Answer, trace: seq<Op>, ops: seq<Op>): (seq<Op>, Option<DataLoaderError>)
    decreases |ops|
  {
    if ops == [] then (trace, None)
    else
      match answer(trace, ops[0])
      case Some(cause) => (trace + [ops[0]], Some(Mongo(cause)))
      case None => Issue(answer, trace + [ops[0]], ops[1..])
  }

  /** Sending two lists of operations: the second only when the first went through. */
  lemma {:induction false} IssueAppend(answer: Answer, trace: seq<Op>, a: seq<Op>, b: seq<Op>)
    ensures Issue(answer, trace, a + b) ==
            var (t, r) := Issue(answer, trace, a); if r.Some? then (t, r) else Issue(answer, t, b)
    decreases |a|
  {
    if a == [] {
      assert a + b == b;
    } else {
      assert (a + b)[0] == a[0] && (a + b)[1..] == a[1..] + b;
      IssueAppend(answer, trace + [a[0]], a[1..], b);
    }
  }

  /** The server answers each of `ops` without error, when they are sent after `trace` in order. */
  predicate AllAccepted(answer: Answer, trace: seq<Op>, ops: seq<Op>) {
    forall k | 0 <= k < |ops| :: answer(trace + ops[..k], ops[k]).None?
  }

  /** The accepted operations after `trace + [op]` are those after `trace` that follow `op`. */
  lemma AcceptedTail(answer: Answer, trace: seq<Op>, ops: seq<Op>)
    requires ops != []
    ensures AllAccepted(answer, trace, ops) <==>
            answer(trace, ops[0]).None? && AllAccepted(answer, trace + [ops[0]], ops[1..])
  {
    assert trace + ops[..0] == trace;
    forall k | 1 <= k < |ops|
      ensures trace + ops[..k] == (trace + [ops[0]]) + ops[1..][..k - 1] && ops[k] == ops[1..][k - 1]
    {
      assert ops[..k] == [ops[0]] + ops[1..][..k - 1];
    }
  }

  /** Sending succeeds exactly when the server accepts every operation; it then receives them all. */
  lemma {:induction false} IssueSucceeds(answer: Answer, trace: seq<Op>, ops: seq<Op>)
    ensures Issue(answer, trace, ops).1.None? <==> AllAccepted(answer, trace, ops)
    ensures Issue(answer, trace, ops).1.None? ==> Issue(answer, trace, ops).0 == trace + ops
    decreases |ops|
  {
    if ops != [] {
      AcceptedTail(answer, trace, ops);
      IssueSucceeds(answer, trace + [ops[0]], ops[1..]);
      assert trace + [ops[0]] + ops[1..] == trace + ops;
    }
  }

  /**
   * The first operation the server refuses ends the sending with its error: the server has
   * received the operations up to and including it, and no later one.
   */
  lemma {:induction false} IssueStops(answer: Answer, trace: seq<Op>, ops: seq<Op>, k: nat)
    requires k < |ops| && AllAccepted(answer, trace, ops[..k]) && answer(trace + ops[..k], ops[k]).Some?
    ensures Issue(answer, trace, ops) == (trace + ops[..k + 1], Some(Mongo(answer(trace + ops[..k], ops[k]).value)))
    decreases k
  {
    if k == 0 {
      assert trace + ops[..0] == trace && ops[..1] == [ops[0]];
    } else {
      var tail := ops[1..];
      assert ops[..k] == [ops[0]] + tail[..k - 1];
      assert ops[..k][1..] == tail[..k - 1] && ops[..k][0] == ops[0];
      AcceptedTail(answer, trace, ops[..k]);
      assert trace + ops[..k] == (trace + [ops[0]]) + tail[..k - 1] && ops[k] == tail[k - 1];
      IssueStops(answer, trace + [ops[0]], tail, k - 1);
      assert (trace + [ops[0]]) + tail[..k] == trace + ops[..k + 1] by {
        assert ops[..k + 1] == [ops[0]] + tail[..k];
      }
    }
  }

  // ---------------------------------------------------------------------------------------
  // The operations of each entry

  /** The name `drop_collections` drops: the collection's if there is one, else the view's. */
  function DroppedName(e: TestDataEntry): Option<string> {
    match (e.collection, e.view)
    case (Some(c), _) => Some(c.name)
    case (None, Some(v)) => Some(v.name)
    case (None, None) => None
  }

  /** The name of a valid entry's collection or view. */
  function DatasourceName(e: TestDataEntry): string
    requires IsValid(e)
  {
    if e.collection.Some? then e.collection.value.name else e.view.value.name
  }

  /** The four per-entry steps of the loader. */
  datatype Step = DropStep | LoadStep | AdfSchemaStep | MongodSchemaStep

  /** The schema steps rely on the entries being valid. */
  predicate Admits(step: Step, e: TestDataEntry) {
    step.DropStep? || step.LoadStep? || IsValid(e)
  }

  /** `drop_collections` for one entry: its collection or view, then its database's schemas. */
  function DropOps(e: TestDataEntry): seq<Op> {
    (match DroppedName(e) case Some(name) => [Drop(e.db, name)] case None => []) + [Drop(e.db, SchemaCollection)]
  }

  /**
   * `load_test_data` for one entry: a collection's documents unless there are none, then its
   * indexes if it has any; otherwise a view, when it has a definition.
   */
  function LoadOps(e: TestDataEntry): seq<Op> {
    match e.collection
    case Some(c) =>
      (if c.docs == [] then [] else [InsertMany(e.db, c.name, c.docs)])
      + (match c.indexes case Some(ix) => [CreateIndexes(e.db, c.name, ix)] case None => [])
    case None =>
      match e.view
      case Some(ViewData(name, Some(d))) => [CreateView(e.db, name, d.viewOn, d.pipeline)]
      case _ => []
  }

  /**
   * `set_schemas_in_adf` for one entry: `sqlSetSchema` on the entry's database when it has a
   * schema, `sqlGenerateSchema` on `admin` sampling the entry's namespace otherwise.
   */
  function AdfSchemaOps(e: TestDataEntry): seq<Op>
    requires IsValid(e)
  {
    var name := DatasourceName(e);
    match e.schema
    case Some(schema) => [RunCommand(e.db, SqlSetSchema(name, schema, 1))]
    case None => [RunCommand("admin", SqlGenerateSchema(true, [e.db + "." + name]))]
  }

  /** `set_schemas_in_mongod` for one entry: its schema document, when it has a schema. */
  function MongodSchemaOps(e: TestDataEntry): seq<Op>
    requires IsValid(e)
  {
    var kind := if e.collection.Some? then "collection" else "view";
    match e.schema
    case Some(schema) => [InsertOne(e.db, SchemaCollection, SchemaDoc(DatasourceName(e), kind, schema))]
    case None => []
  }

  /** The operations of one step for one entry. */
  function EntryOps(step: Step, e: TestDataEntry): seq<Op>
    requires Admits(step, e)
  {
    match step
    case DropStep => DropOps(e)
    case LoadStep => LoadOps(e)
    case AdfSchemaStep => AdfSchemaOps(e)
    case MongodSchemaStep => MongodSchemaOps(e)
  }

  /** The step admits every entry of every file. */
  predicate AdmitsAll(step: Step, files: seq<TestDataFile>) {
    forall i, j | 0 <= i < |files| && 0 <= j < |files[i].dataset| :: Admits(step, files[i].dataset[j])
  }

  /** The operations of one step for the entries `es`, in order. */
  function EntriesOps(step: Step, es: seq<TestDataEntry>): seq<Op>
    requires forall j | 0 <= j < |es| :: Admits(step, es[j])
  {
    if es == [] then [] else EntryOps(step, es[0]) + EntriesOps(step, es[1..])
  }

  /** The operations of one step for all entries of all files, in order. */
  function Plan(step: Step, files: seq<TestDataFile>): seq<Op>
    requires AdmitsAll(step, files)
  {
    if files == [] then []
    else
      assert forall j | 0 <= j < |files[0].dataset| :: Admits(step, files[0].dataset[j]);
      assert AdmitsAll(step, files[1..]) by {
        assert forall i | 0 <= i < |files| - 1 :: files[1..][i] == files[i + 1];
      }
      EntriesOps(step, files[0].dataset) + Plan(step, files[1..])
  }

  /** A plan is the operations of its first file's entries followed by those of the others. */
  lemma PlanFrom(step: Step, files: seq<TestDataFile>, i: nat)
    requires AdmitsAll(step, files) && i < |files|
    ensures forall k | 0 <= k < |files[i].dataset| :: Admits(step, files[i].dataset[k])
    ensures AdmitsAll(step, files[i..]) && AdmitsAll(step, files[i + 1..])
    ensures Plan(step, files[i..]) == EntriesOps(step, files[i].dataset) + Plan(step, files[i + 1..])
  {
    assert forall k | i <= k < |files| :: files[i..][k - i] == files[k];
    assert forall k | i + 1 <= k < |files| :: files[i + 1..][k - i - 1] == files[k];
    assert files[i..][1..] == files[i + 1..];
  }

  // ---------------------------------------------------------------------------------------
  // The client

  /** A connection to one server, with everything sent to it so far. */
  class Client {
    const answer: Answer
    var trace: seq<Op>

    /** A new connection; nothing has been sent yet. */
    constructor (answer: Answer)
      ensures this.answer == answer && trace == []
    {
      this.answer := answer;
      trace := [];
    }

    /** Sends one operation; a refusal becomes `DataLoaderError::Mongo`. */
    method Send(op: Op) returns (r: Option<DataLoaderError>)
      modifies this
      ensures (trace, r) == Issue(answer, old(trace), [op])
    {
      var refusal := answer(trace, op);
      trace := trace + [op];
      r := if refusal.Some? then Some(Mongo(refusal.value)) else None;
    }

    /** The body of the inner loop of `drop_collections`. */
    method DropEntry(e: TestDataEntry) returns (r: Option<DataLoaderError>)
      modifies this
      ensures (trace, r) == Issue(answer, old(trace), DropOps(e))
    {
      var schemas := [Drop(e.db, SchemaCollection)];
      match DroppedName(e)
      case Some(name) =>
        IssueAppend(answer, trace, [Drop(e.db, name)], schemas);
        r := Send(Drop(e.db, name));
        if r.Some? {
          return;
        }
        r := Send(Drop(e.db, SchemaCollection));
      case None =>
        assert DropOps(e) == schemas;
        r := Send(Drop(e.db, SchemaCollection));
    }

    /** The body of the inner loop of `load_test_data`. */
    method LoadEntry(e: TestDataEntry) returns (r: Option<DataLoaderError>)
      modifies this
      ensures (trace, r) == Issue(answer, old(trace), LoadOps(e))
    {
      r := None;
      if e.collection.Some? {
        var c := e.collection.value;
        var indexOps := match c.indexes case Some(ix) => [CreateIndexes(e.db, c.name, ix)] case None => [];
        if c.docs != [] {
          IssueAppend(answer, trace, [InsertMany(e.db, c.name, c.docs)], indexOps);
          r := Send(InsertMany(e.db, c.name, c.docs));
          if r.Some? {
            return;
          }
        } else {
          assert LoadOps(e) == indexOps;
        }
        if c.indexes.Some? {
          r := Send(CreateIndexes(e.db, c.name, c.indexes.value));
        }
      } else if e.view.Some? {
        var v := e.view.value;
        if v.definition.Some? {
          var d := v.definition.value;
          r := Send(CreateView(e.db, v.name, d.viewOn, d.pipeline));
        }
      }
    }

    /** The body of the inner loop of `set_schemas_in_adf`. */
    method SetSchemaInAdf(e: TestDataEntry) returns (r: Option<DataLoaderError>)
      requires IsValid(e)
      modifies this
      ensures (trace, r) == Issue(answer, old(trace), AdfSchemaOps(e))
    {
      var name := if e.collection.Some? then e.collection.value.name else e.view.value.name;
      match e.schema
      case Some(schema) =>
        r := Send(RunCommand(e.db, SqlSetSchema(name, schema, 1)));
      case None =>
        r := Send(RunCommand("admin", SqlGenerateSchema(true, [e.db + "." + name])));
    }

    /** The body of the inner loop of `set_schemas_in_mongod`. */
    method SetSchemaInMongod(e: TestDataEntry) returns (r: Option<DataLoaderError>)
      requires IsValid(e)
      modifies this
      ensures (trace, r) == Issue(answer, old(trace), MongodSchemaOps(e))
    {
      var (name, kind) := if e.collection.Some? then (e.collection.value.name, "collection") else (e.view.value.name, "view");
      match e.schema
      case Some(schema) =>
        r := Send(InsertOne(e.db, SchemaCollection, SchemaDoc(name, kind, schema)));
      case None =>
        r := None;
    }

    /** The body of the inner loop of one step. */
    method RunEntry(step: Step, e: TestDataEntry) returns (r: Option<DataLoaderError>)
      requires Admits(step, e)
      modifies this
      ensures (trace, r) == Issue(answer, old(trace), EntryOps(step, e))
    {
      match step
      case DropStep => r := DropEntry(e);
      case LoadStep => r := LoadEntry(e);
      case AdfSchemaStep => r := SetSchemaInAdf(e);
      case MongodSchemaStep => r := SetSchemaInMongod(e);
    }

    /** The outer of the two loops that all steps share: over the files, in order. */
    method RunStep(step: Step, files: seq<TestDataFile>) returns (r: Option<DataLoaderError>)
      requires AdmitsAll(step, files)
      modifies this
      ensures (trace, r) == Issue(answer, old(trace), Plan(step, files))
    {
      var i := 0;
      while i < |files|
        invariant 0 <= i <= |files|
        invariant AdmitsAll(step, files[i..])
        invariant Issue(answer, old(trace), Plan(step, files)) == Issue(answer, trace, Plan(step, files[i..]))
      {
        PlanFrom(step, files, i);
        IssueAppend(answer, trace, EntriesOps(step, files[i].dataset), Plan(step, files[i + 1..]));
        r := RunEntries(step, files[i].dataset);
        if r.Some? {
          return;
        }
        i := i + 1;
      }
      assert files[i..] == [];
      r := None;
    }

    /** The inner loop: over the entries of one file, in order. */
    method RunEntries(step: Step, es: seq<TestDataEntry>) returns (r: Option<DataLoaderError>)
      requires forall j | 0 <= j < |es| :: Admits(step, es[j])
      modifies this
      ensures (trace, r) == Issue(answer, old(trace), EntriesOps(step, es))
    {
      var j := 0;
      while j < |es|
        invariant 0 <= j <= |es|
        invariant Issue(answer, old(trace), EntriesOps(step, es)) == Issue(answer, trace, EntriesOps(step, es[j..]))
      {
        assert es[j..][1..] == es[j + 1..];
        IssueAppend(answer, trace, EntryOps(step, es[j]), EntriesOps(step, es[j + 1..]));
        r := RunEntry(step, es[j]);
        if r.Some? {
          return;
        }
        j := j + 1;
      }
      assert es[j..] == [];
      r := None;
    }

    /** `drop_collections`. */
    method DropCollections(files: seq<TestDataFile>) returns (r: Option<DataLoaderError>)
      modifies this
      ensures (trace, r) == Issue(answer, old(trace), Plan(DropStep, files))
    {
      r := RunStep(DropStep, files);
    }

    /** `load_test_data`. */
    method LoadTestData(files: seq<TestDataFile>) returns (r: Option<DataLoaderError>)
      modifies this
      ensures (trace, r) == Issue(answer, old(trace), Plan(LoadStep, files))
    {
      r := RunStep(LoadStep, files);
    }

    /** `set_schemas_in_adf`, on files whose entries are all valid. */
    method SetSchemasInAdf(files: seq<TestDataFile>) returns (r: Option<DataLoaderError>)
      requires AllValid(files)
      modifies this
      ensures AdmitsAll(AdfSchemaStep, files)
      ensures (trace, r) == Issue(answer, old(trace), Plan(AdfSchemaStep, files))
    {
      r := RunStep(AdfSchemaStep, files);
    }

    /** `set_schemas_in_mongod`, on files whose entries are all valid. */
    method SetSchemasInMongod(files: seq<TestDataFile>) returns (r: Option<DataLoaderError>)
      requires AllValid(files)
      modifies this
      ensures AdmitsAll(MongodSchemaStep, files)
      ensures (trace, r) == Issue(answer, old(trace), Plan(MongodSchemaStep, files))
    {
      r := RunStep(MongodSchemaStep, files);
    }
  }

  // ---------------------------------------------------------------------------------------
  // What the operations of each entry mean

  /** The namespace (`db.collection`) an operation writes data or a view to, if it does. */
  function Written(op: Op): Option<(string, string)> {
    match op
    case InsertMany(db, collection, _) => Some((db, collection))
    case CreateIndexes(db, collection, _) => Some((db, collection))
    case CreateView(db, name, _, _) => Some((db, name))
    case InsertOne(db, collection, _) => Some((db, collection))
    case _ => None
  }

  /** The namespace, as `db.name`, whose schema an operation sets, if it sets one. */
  function SchemaTarget(op: Op): Option<string> {
    match op
    case RunCommand(db, SqlSetSchema(name, _, _)) => Some(db + "." + name)
    case RunCommand(_, SqlGenerateSchema(_, namespaces)) => if |namespaces| == 1 then Some(namespaces[0]) else None
    case InsertOne(db, collection, doc) => if collection == SchemaCollection then Some(db + "." + doc.id) else None
    case _ => None
  }

  /**
   * Loading an entry inserts its documents exactly when it has a collection with documents,
   * creates indexes exactly when that collection lists indexes, and creates a view exactly
   * when it has no collection but a view with a definition.
   */
  lemma LoadOpsMeaning(e: TestDataEntry)
    ensures forall db, name, docs :: InsertMany(db, name, docs) in LoadOps(e) <==>
              e.collection.Some? && db == e.db && name == e.collection.value.name
              && docs == e.collection.value.docs && docs != []
    ensures (exists op :: op in LoadOps(e) && op.CreateIndexes?) <==>
            e.collection.Some? && e.collection.value.indexes.Some?
    ensures (exists op :: op in LoadOps(e) && op.CreateView?) <==>
            e.collection.None? && e.view.Some? && e.view.value.definition.Some?
    ensures forall op :: op in LoadOps(e) ==> Written(op).Some? && Written(op).value.0 == e.db
  {
    match e.collection
    case Some(c) =>
      if c.indexes.Some? {
        assert CreateIndexes(e.db, c.name, c.indexes.value) in LoadOps(e);
      }
    case None =>
      if e.view.Some? && e.view.value.definition.Some? {
        var d := e.view.value.definition.value;
        assert CreateView(e.db, e.view.value.name, d.viewOn, d.pipeline) in LoadOps(e);
      }
  }

  /**
   * Dropping a valid entry drops its collection or view, then its database's schemas; the
   * collection-first choice of `drop_collections` and the match of the schema steps agree.
   */
  lemma DropOpsOfValid(e: TestDataEntry)
    requires IsValid(e)
    ensures DropOps(e) == [Drop(e.db, DatasourceName(e)), Drop(e.db, SchemaCollection)]
  {
  }

  /** `op` writes to a namespace that one of `drops` drops. */
  predicate Covered(op: Op, drops: seq<Op>) {
    Written(op).Some? && Drop(Written(op).value.0, Written(op).value.1) in drops
  }

  /**
   * Whatever loading an entry or writing its schema to the mongod writes to, dropping the
   * entry drops: afterwards nothing the entry loaded is left.
   */
  lemma DropCoversEntry(e: TestDataEntry)
    ensures forall op | op in LoadOps(e) :: Covered(op, DropOps(e))
    ensures IsValid(e) ==> forall op | op in MongodSchemaOps(e) :: Covered(op, DropOps(e))
  {
    LoadOpsMeaning(e);
    forall op | op in LoadOps(e)
      ensures Covered(op, DropOps(e))
    {
      assert Written(op).value.1 == DroppedName(e).value;
    }
  }

  /**
   * Each valid entry gets exactly one ADF schema command, for its own namespace: `sqlSetSchema`
   * on its database with version 1 when it has a schema, `sqlGenerateSchema` on `admin`
   * otherwise. Against a mongod, it gets a schema document exactly when it has a schema, with
   * the entry's name as `_id` and its kind as `type`, for the same namespace.
   */
  lemma SchemaOpsMeaning(e: TestDataEntry)
    requires IsValid(e)
    ensures var ns := e.db + "." + DatasourceName(e);
            && |AdfSchemaOps(e)| == 1 && SchemaTarget(AdfSchemaOps(e)[0]) == Some(ns)
            && (AdfSchemaOps(e)[0].command.SqlSetSchema? <==> e.schema.Some?)
            && (AdfSchemaOps(e)[0].command.SqlSetSchema? ==>
                  AdfSchemaOps(e)[0].db == e.db && AdfSchemaOps(e)[0].command.jsonSchema == e.schema.value
                  && AdfSchemaOps(e)[0].command.version == 1)
            && (AdfSchemaOps(e)[0].command.SqlGenerateSchema? ==>
                  AdfSchemaOps(e)[0].db == "admin" && AdfSchemaOps(e)[0].command.setSchemas)
    ensures var ns := e.db + "." + DatasourceName(e);
            && (e.schema.Some? <==> |MongodSchemaOps(e)| == 1)
            && forall op | op in MongodSchemaOps(e) ::
                 && op.InsertOne? && SchemaTarget(op) == Some(ns) && op.doc.schema == e.schema.value
                 && (op.doc.kind == "collection" <==> e.collection.Some?)
                 && (op.doc.kind == "view" <==> e.view.Some?)
  {
  }

  /** An operation is in a plan exactly when it is among the operations of one of its entries. */
  lemma {:induction false} PlanMember(step: Step, files: seq<TestDataFile>, op: Op)
    requires AdmitsAll(step, files)
    ensures op in Plan(step, files) <==>
            exists i, j | 0 <= i < |files| && 0 <= j < |files[i].dataset| :: op in EntryOps(step, files[i].dataset[j])
    decreases |files|
  {
    if files != [] {
      PlanFrom(step, files, 0);
      assert files[0..] == files;
      PlanMember(step, files[1..], op);
      EntriesMember(step, files[0].dataset, op);
      assert forall i | 1 <= i < |files| :: files[i] == files[1..][i - 1];
      if op in Plan(step, files[1..]) {
        var i, j :| 0 <= i < |files[1..]| && 0 <= j < |files[1..][i].dataset| && op in EntryOps(step, files[1..][i].dataset[j]);
        assert op in EntryOps(step, files[i + 1].dataset[j]);
      }
    }
  }

  lemma {:induction false} EntriesMember(step: Step, es: seq<TestDataEntry>, op: Op)
    requires forall j | 0 <= j < |es| :: Admits(step, es[j])
    ensures op in EntriesOps(step, es) <==> exists j | 0 <= j < |es| :: op in EntryOps(step, es[j])
    decreases |es|
  {
    if es != [] {
      EntriesMember(step, es[1..], op);
      assert forall j | 1 <= j < |es| :: es[j] == es[1..][j - 1];
      if op in EntriesOps(step, es[1..]) {
        var j :| 0 <= j < |es[1..]| && op in EntryOps(step, es[1..][j]);
        assert op in EntryOps(step, es[j + 1]);
      }
    }
  }

  /** What one entry's operations write to, dropping all files drops. */
  lemma CoveredByPlan(step: Step, files: seq<TestDataFile>, op: Op)
    requires step.LoadStep? || (step.MongodSchemaStep? && AllValid(files))
    requires op in Plan(step, files)
    ensures Covered(op, Plan(DropStep, files))
  {
    PlanMember(step, files, op);
    var i, j :| 0 <= i < |files| && 0 <= j < |files[i].dataset| && op in EntryOps(step, files[i].dataset[j]);
    DropCoversEntry(files[i].dataset[j]);
    PlanMember(DropStep, files, Drop(Written(op).value.0, Written(op).value.1));
  }

  /**
   * Dropping all files drops every namespace that loading them, or writing their schemas to the
   * mongod, writes to: after a failed load, the drop that follows leaves none of it behind.
   */
  lemma DropCoversPlan(files: seq<TestDataFile>)
    ensures forall op | op in Plan(LoadStep, files) :: Covered(op, Plan(DropStep, files))
    ensures AllValid(files) ==> forall op | op in Plan(MongodSchemaStep, files) :: Covered(op, Plan(DropStep, files))
  {
    forall op | op in Plan(LoadStep, files)
      ensures Covered(op, Plan(DropStep, files))
    {
      CoveredByPlan(LoadStep, files, op);
    }
    if AllValid(files) {
      forall op | op in Plan(MongodSchemaStep, files)
        ensures Covered(op, Plan(DropStep, files))
      {
        CoveredByPlan(MongodSchemaStep, files, op);
      }
    }
  }

  // ---------------------------------------------------------------------------------------
  // The program

  /** The command-line arguments. */
  datatype Args = Args(mongodUri: Option<string>, adfUri: Option<string>, testDataDirectory: string, adf: bool)

  /** ADF mode: the `adf` flag is set or an ADF URI is given. */
  predicate AdfMode(args: Args) {
    args.adf || args.adfUri.Some?
  }

  /** Whether connecting to the mongod and to ADF fails, and why. */
  datatype Connections = Connections(mongod: Option<Cause>, adf: Option<Cause>)

  /** What the mongod and ADF have received. */
  datatype Traces = Traces(mongod: seq<Op>, adf: seq<Op>)

  /**
   * `main`: connect to the mongod, read the data files, drop their namespaces, load them (and
   * on failure drop them again and report the load's error, unless that drop fails too), then
   * write the schemas to ADF in ADF mode and to the mongod otherwise.
   */
  function MainEffect(args: Args, conn: Connections, files: Files, dirs: string -> DataDir,
                      mongod: Answer, adf: Answer, t: Traces): (Traces, Option<DataLoaderError>)
  {
    if conn.mongod.Some? then (t, Some(Mongo(conn.mongod.value)))
    else
      var read := DataFilesRead(files, dirs(args.testDataDirectory));
      match read
      case Err(e) => (t, Some(e))
      case Ok(tdfs) =>
        var (m1, r1) := Issue(mongod, t.mongod, Plan(DropStep, tdfs));
        if r1.Some? then (t.(mongod := m1), r1)
        else
          var (m2, r2) := Issue(mongod, m1, Plan(LoadStep, tdfs));
          if r2.Some? then
            var (m3, r3) := Issue(mongod, m2, Plan(DropStep, tdfs));
            (t.(mongod := m3), if r3.Some? then r3 else r2)
          else
            ReadValid(files, dirs(args.testDataDirectory));
            if AdfMode(args) then
              if conn.adf.Some? then (t.(mongod := m2), Some(Mongo(conn.adf.value)))
              else
                var (a1, r4) := Issue(adf, t.adf, Plan(AdfSchemaStep, tdfs));
                (Traces(m2, a1), r4)
            else
              var (m4, r4) := Issue(mongod, m2, Plan(MongodSchemaStep, tdfs));
              (t.(mongod := m4), r4)
  }

  /** `main`, with the clients of the mongod and of ADF. */
  method RunLoader(args: Args, conn: Connections, files: Files, dirs: string -> DataDir, mongod: Client, adf: Client)
    returns (r: Option<DataLoaderError>)
    requires mongod != adf
    modifies mongod, adf
    ensures (Traces(mongod.trace, adf.trace), r) ==
            MainEffect(args, conn, files, dirs, mongod.answer, adf.answer, old(Traces(mongod.trace, adf.trace)))
  {
    if conn.mongod.Some? {
      return Some(Mongo(conn.mongod.value));
    }
    var read := ReadDataFiles(files, dirs(args.testDataDirectory));
    if read.Err? {
      return Some(read.error);
    }
    var testDataFiles := read.value;
    r := mongod.DropCollections(testDataFiles);
    if r.Some? {
      return;
    }
    var loaded := mongod.LoadTestData(testDataFiles);
    if loaded.Some? {
      r := mongod.DropCollections(testDataFiles);
      if r.Some? {
        return;
      }
      return loaded;
    }
    ReadValid(files, dirs(args.testDataDirectory));
    if AdfMode(args) {
      if conn.adf.Some? {
        return Some(Mongo(conn.adf.value));
      }
      r := adf.SetSchemasInAdf(testDataFiles);
    } else {
      r := mongod.SetSchemasInMongod(testDataFiles);
    }
  }

  /**
   * A successful run read the files, and then the mongod received their drops, their loads and,
   * outside ADF mode, their schema documents, all of them in order; in ADF mode ADF received
   * their schema commands, and outside it ADF received nothing.
   */
  lemma MainSucceeds(args: Args, conn: Connections, files: Files, dirs: string -> DataDir,
                     mongod: Answer, adf: Answer, t: Traces)
    requires MainEffect(args, conn, files, dirs, mongod, adf, t).1.None?
    ensures var read := DataFilesRead(files, dirs(args.testDataDirectory));
            var t' := MainEffect(args, conn, files, dirs, mongod, adf, t).0;
            && conn.mongod.None? && read.Ok? && AllValid(read.value)
            && t'.mongod == t.mongod + Plan(DropStep, read.value) + Plan(LoadStep, read.value)
                            + (if AdfMode(args) then [] else Plan(MongodSchemaStep, read.value))
            && t'.adf == t.adf + (if AdfMode(args) then Plan(AdfSchemaStep, read.value) else [])
  {
    var read := DataFilesRead(files, dirs(args.testDataDirectory));
    ReadValid(files, dirs(args.testDataDirectory));
    var tdfs := read.value;
    var (m1, r1) := Issue(mongod, t.mongod, Plan(DropStep, tdfs));
    IssueSucceeds(mongod, t.mongod, Plan(DropStep, tdfs));
    var (m2, r2) := Issue(mongod, m1, Plan(LoadStep, tdfs));
    IssueSucceeds(mongod, m1, Plan(LoadStep, tdfs));
    if AdfMode(args) {
      IssueSucceeds(adf, t.adf, Plan(AdfSchemaStep, tdfs));
      assert m2 + [] == m2;
    } else {
      IssueSucceeds(mongod, m2, Plan(MongodSchemaStep, tdfs));
      assert t.adf + [] == t.adf;
    }
  }

  /**
   * When loading fails with `e` after the drops went through, the run drops all namespaces
   * again and fails: with `e` when that drop goes through, with the drop's error otherwise.
   * Either way nothing is sent to ADF and no schema is written.
   */
  lemma LoadFailureDropsAll(args: Args, conn: Connections, files: Files, dirs: string -> DataDir,
                            mongod: Answer, adf: Answer, t: Traces, e: DataLoaderError)
    requires conn.mongod.None? && DataFilesRead(files, dirs(args.testDataDirectory)).Ok?
    requires var tdfs := DataFilesRead(files, dirs(args.testDataDirectory)).value;
             && AllAccepted(mongod, t.mongod, Plan(DropStep, tdfs))
             && Issue(mongod, t.mongod + Plan(DropStep, tdfs), Plan(LoadStep, tdfs)).1 == Some(e)
    ensures var tdfs := DataFilesRead(files, dirs(args.testDataDirectory)).value;
            var (t', r) := MainEffect(args, conn, files, dirs, mongod, adf, t);
            var m2 := Issue(mongod, t.mongod + Plan(DropStep, tdfs), Plan(LoadStep, tdfs)).0;
            && t'.adf == t.adf
            && (AllAccepted(mongod, m2, Plan(DropStep, tdfs)) ==> r == Some(e) && t'.mongod == m2 + Plan(DropStep, tdfs))
            && (!AllAccepted(mongod, m2, Plan(DropStep, tdfs)) ==> r.Some? && r == Issue(mongod, m2, Plan(DropStep, tdfs)).1)
  {
    var tdfs := DataFilesRead(files, dirs(args.testDataDirectory)).value;
    IssueSucceeds(mongod, t.mongod, Plan(DropStep, tdfs));
    var m2 := Issue(mongod, t.mongod + Plan(DropStep, tdfs), Plan(LoadStep, tdfs)).0;
    IssueSucceeds(mongod, m2, Plan(DropStep, tdfs));
  }

  /** Outside ADF mode nothing is ever sent to ADF. */
  lemma AdfOnlyInAdfMode(args: Args, conn: Connections, files: Files, dirs: string -> DataDir,
                         mongod: Answer, adf: Answer, t: Traces)
    requires !AdfMode(args)
    ensures MainEffect(args, conn, files, dirs, mongod, adf, t).0.adf == t.adf
  {
  }
}
