/** The command objects of src/management/commands: what each constructor
    stores, and what each command does with one record.

    A command is a value: no execute changes a command's fields. The one piece
    of state a command owns is the generator an Iterator drains, which is a
    `Generator` object. */
module Commands {
  import opened Wrappers
  import opened Codec
  import opened Query
  import opened World
  import opened Store

  /** The fields FileABC's constructor stores: the argument verbatim, the
      category it resolves to, the file name and the binary-mode flag. */
  datatype FileFields = FileFields(queryType: string, query: Category, fileName: Option<string>, binaryMode: bool)

  /** A generator: the records it has still to yield, then how it ends. */
  class Generator {
    var rest: Stream<Record>

    constructor (items: Stream<Record>)
      ensures rest == items
    {
      rest := items;
    }
  }

  datatype Command =
    | Save(file: FileFields)
    | Load(file: FileFields)
    | Delete(deleteType: string, target: Category)
    | Aggregate(commands: seq<Command>)
    | Iterator(generator: Generator, action: Record -> Result<Call>)
    | SaveQuery(query: Category, fileName: Option<string>, binaryMode: bool)
    | LoadQuery(query: Category, loadFunction: Record -> Result<Call>, fileName: Option<string>, binaryMode: bool)

  /** The file name the constructors default to. */
  const DefaultFileName: string := "backup.json"

  /** FileABC.__init__: resolves the category at construction, so an unknown
      query type raises here and no command exists. */
  function NewFileFields(queryType: string, fileName: Option<string>, binaryMode: bool): (r: Result<FileFields>)
    ensures r.Ok? <==> exists c: Category :: Upper(queryType) in Spellings(c)
    ensures r.Ok? ==> (r.value.queryType == queryType && r.value.fileName == fileName
                       && r.value.binaryMode == binaryMode && Upper(queryType) in Spellings(r.value.query))
    ensures r.Err? ==> r.error == KeyError(Normalised(queryType))
  {
    ResolveSpellings(queryType, OBJECT);
    ResolveSpellings(queryType, TERRAIN);
    ResolveSpellings(queryType, WORLD);
    match Resolve(queryType)
    case Err(e) => Err(e)
    case Ok(c) => Ok(FileFields(queryType, c, fileName, binaryMode))
  }

  /** Save(instance, query_type, file_name='backup.json', binary_mode=False). */
  function NewSave(queryType: string, fileName: Option<string> := Some(DefaultFileName), binaryMode: bool := false)
    : (r: Result<Command>)
    ensures r.Ok? <==> NewFileFields(queryType, fileName, binaryMode).Ok?
    ensures r.Ok? ==> r.value == Save(NewFileFields(queryType, fileName, binaryMode).value)
    ensures r.Err? ==> r.error == KeyError(Normalised(queryType))
  {
    match NewFileFields(queryType, fileName, binaryMode)
    case Err(e) => Err(e)
    case Ok(f) => Ok(Save(f))
  }

  /** Load(instance, query_type, file_name='backup.json', binary_mode=False). */
  function NewLoad(queryType: string, fileName: Option<string> := Some(DefaultFileName), binaryMode: bool := false)
    : (r: Result<Command>)
    ensures r.Ok? <==> NewFileFields(queryType, fileName, binaryMode).Ok?
    ensures r.Ok? ==> r.value == Load(NewFileFields(queryType, fileName, binaryMode).value)
    ensures r.Err? ==> r.error == KeyError(Normalised(queryType))
  {
    match NewFileFields(queryType, fileName, binaryMode)
    case Err(e) => Err(e)
    case Ok(f) => Ok(Load(f))
  }

  /** Delete(query_type): the same resolution as FileABC, and no instance. */
  function NewDelete(queryType: string): (r: Result<Command>)
    ensures r.Ok? <==> exists c: Category :: Upper(queryType) in Spellings(c)
    ensures r.Ok? ==> (r.value.Delete? && r.value.deleteType == queryType
                       && Upper(queryType) in Spellings(r.value.target))
    ensures r.Err? ==> r.error == KeyError(Normalised(queryType))
  {
    ResolveSpellings(queryType, OBJECT);
    ResolveSpellings(queryType, TERRAIN);
    ResolveSpellings(queryType, WORLD);
    match Resolve(queryType)
    case Err(e) => Err(e)
    case Ok(c) => Ok(Delete(queryType, c))
  }

  /** A query type that resolves to c gives each of the three constructors a
      command over c, holding the query type as it was given. */
  lemma ConstructorsResolved(queryType: string, c: Category)
    requires Resolve(queryType) == Ok(c)
    ensures NewDelete(queryType) == Ok(Delete(queryType, c))
    ensures forall f, b :: NewLoad(queryType, f, b) == Ok(Load(FileFields(queryType, c, f, b)))
    ensures forall f, b :: NewSave(queryType, f, b) == Ok(Save(FileFields(queryType, c, f, b)))
  {
    forall f, b
      ensures NewFileFields(queryType, f, b) == Ok(FileFields(queryType, c, f, b))
    {
    }
  }

  /** SaveQuery(instance, query_type, file_name='backup.json', binary_mode=False):
      the category is taken as given. */
  function NewSaveQuery(query: Category, fileName: Option<string> := Some(DefaultFileName), binaryMode: bool := false)
    : (c: Command)
    ensures c.SaveQuery? && c.query == query && c.fileName == fileName && c.binaryMode == binaryMode
  {
    SaveQuery(query, fileName, binaryMode)
  }

  /** The keys Load and LoadObjects drop from a record before loading it. */
  const StrippedKeys: set<string> := {"id", "number"}

  /** data.pop('id', None); data.pop('number', None): both keys go if present,
      and every other key keeps its value. */
  function Strip(data: Record): (r: Record)
    ensures r.Keys == data.Keys - StrippedKeys
    ensures forall k :: k in r ==> r[k] == data[k]
  {
    data - StrippedKeys
  }

  /** write_data(WorldAttributeEnum[data['name']].value, data['value']): the
      arguments are evaluated left to right, so a missing name, an unknown
      name and a missing value fail in that order. */
  function WorldWrite(attribute: string -> Option<int>, data: Record): (r: Result<Call>)
    ensures r.Ok? <==> "name" in data && data["name"].VStr? && attribute(data["name"].s).Some? && "value" in data
    ensures r.Ok? ==> r.value == WriteData(attribute(data["name"].s).value, data["value"])
  {
    if "name" !in data then Err(KeyError("name"))
    else
      var name := data["name"];
      if !name.VStr? || attribute(name.s).None? then Err(KeyError(Repr(name)))
      else if "value" !in data then Err(KeyError("value"))
      else Ok(WriteData(attribute(name.s).value, data["value"]))
  }

  /** Load._load_function as it is evidently meant: the SDK call for one record
      of the command's category. */
  function LoadDispatch(query: Category, attribute: string -> Option<int>, data: Record): (r: Result<Call>)
    ensures query == OBJECT ==> r == Ok(ObjectLoad(data))
    ensures query == TERRAIN ==> r == Ok(TerrainLoadNode(data))
    ensures query == WORLD ==> r == WorldWrite(attribute, data)
  {
    match query
    case OBJECT => Ok(ObjectLoad(data))
    case TERRAIN => Ok(TerrainLoadNode(data))
    case WORLD => WorldWrite(attribute, data)
  }

  /** The attribute Load._load_function reads: FileABC never assigns it (it
      stores the category as `_query`). */
  const QueryTypeAttribute: string := "_query_type"

  /** Load._load_function as written: `self._query_type` does not exist, so
      every call raises AttributeError before any SDK call is chosen. */
  function LoadDispatchAsWritten(query: Category, attribute: string -> Option<int>, data: Record): (r: Result<Call>)
  {
    Err(AttributeError(QueryTypeAttribute))
  }

  /** The as-written dispatch never loads anything, for any category and any
      record, while the intended one loads every object and terrain record. */
  lemma LoadDispatchAsWrittenFails(query: Category, attribute: string -> Option<int>, data: Record)
    ensures LoadDispatchAsWritten(query, attribute, data) == Err(AttributeError(QueryTypeAttribute))
    ensures query != WORLD ==> LoadDispatch(query, attribute, data).Ok?
  {
  }

  /** Load.execute's _receive: strip, then dispatch. */
  function LoadReceive(query: Category, attribute: string -> Option<int>): Record -> Result<Call>
  {
    data => LoadDispatch(query, attribute, Strip(data))
  }

  /** LoadObjects' _receive: strip, then aw_object_load. */
  function ObjectLoadFunction(data: Record): (r: Result<Call>)
    ensures r.Ok? && r.value.ObjectLoad? && r.value.entity == Strip(data)
  {
    Ok(ObjectLoad(Strip(data)))
  }

  /** LoadObjects(instance, file_name='backup.json', binary_mode=False): a
      LoadQuery of the objects with ObjectLoadFunction as its load function. */
  function NewLoadObjects(fileName: Option<string> := Some(DefaultFileName), binaryMode: bool := false)
    : (c: Command)
    ensures c.LoadQuery? && c.query == OBJECT && c.fileName == fileName && c.binaryMode == binaryMode
    ensures c.LoadQuery? ==> forall data :: c.loadFunction(data) == ObjectLoadFunction(data)
  {
    LoadQuery(OBJECT, ObjectLoadFunction, fileName, binaryMode)
  }

  /** DeleteObjects' action: ObjectDeleteData(data.number, data.x, data.z),
      whose attributes are read in that order. */
  function ObjectDeleteAction(data: Record): (r: Result<Call>)
    ensures r.Ok? <==> "number" in data && "x" in data && "z" in data
    ensures r.Ok? ==> r.value == ObjectDelete(data["number"], data["x"], data["z"])
    ensures "number" !in data ==> r == Err(AttributeError("number"))
  {
    if "number" !in data then Err(AttributeError("number"))
    else if "x" !in data then Err(AttributeError("x"))
    else if "z" !in data then Err(AttributeError("z"))
    else Ok(ObjectDelete(data["number"], data["x"], data["z"]))
  }

  /** The bulk call Delete.execute makes for a category. */
  function BulkDelete(target: Category): Call
  {
    match target
    case OBJECT => DeleteAllObjects
    case TERRAIN => TerrainDeleteAll
    case WORLD => WorldAttributesReset
  }

  /** A record as the line a save command hands to append_to: serialized,
      then UTF-8 encoded in binary mode. */
  function LineOf(dumps: Record -> Result<string>, utf8: TextCodec, binaryMode: bool): Record -> Result<Data>
  {
    data => match dumps(data)
      case Err(e) => Err(e)
      case Ok(text) => Ok(LineData(binaryMode, utf8, text))
  }

  /** Save's _receive up to append_to: json.dumps(asdict(data), skipkeys=True,
      default=str). */
  function SaveLine(lib: Library, binaryMode: bool): Record -> Result<Data>
  {
    LineOf(lib.json.dumps, lib.utf8, binaryMode)
  }

  /** SaveQuery's lambda up to append_to: json.dumps(data.__dict__). */
  function SaveQueryLine(lib: Library, binaryMode: bool): Record -> Result<Data>
  {
    LineOf(lib.json.dumpsPlain, lib.utf8, binaryMode)
  }

  /** Each category's bulk delete is a different call. */
  lemma BulkDeleteInjective(a: Category, b: Category)
    ensures BulkDelete(a) == BulkDelete(b) <==> a == b
  {
  }

  /** The generator objects a command owns, nested aggregates included. */
  function Generators(c: Command): set<Generator>
    decreases c, 1
  {
    match c
    case Iterator(g, _) => {g}
    case Aggregate(_) => GeneratorsFrom(c, 0)
    case _ => {}
  }

  /** The generators of an aggregate's commands from index i on. */
  function GeneratorsFrom(c: Command, i: nat): set<Generator>
    requires c.Aggregate? && i <= |c.commands|
    decreases c, 0, |c.commands| - i
  {
    if i == |c.commands| then {} else Generators(c.commands[i]) + GeneratorsFrom(c, i + 1)
  }

  /** An aggregate owns the generators of each of its commands. */
  lemma {:induction false} GeneratorsOfPart(c: Command, i: nat, j: nat)
    requires c.Aggregate? && i <= j < |c.commands|
    ensures Generators(c.commands[j]) <= GeneratorsFrom(c, i)
    decreases j - i
  {
    if i < j {
      GeneratorsOfPart(c, i + 1, j);
    }
  }
}
