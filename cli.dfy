/** The registration helpers of src/cli/commands: chained register calls that
    add the SAVE and LOAD entries to an existing invoker. */
module Cli {
  import opened Wrappers
  import opened Codec
  import opened Query
  import opened World
  import opened Store
  import opened Commands
  import opened Semantics
  import opened Execution
  import opened Invoker

  /** f"{value}" of an optional file name: None is written "None". */
  function Formatted(file: Option<string>): (s: string)
    ensures file.Some? ==> s == file.value
    ensures file.None? ==> s == "None"
  {
    match file
    case None => "None"
    case Some(name) => name
  }

  const SaveAttributesName: string := "SAVE ATTRIBUTES"
  const SaveObjectsName: string := "SAVE OBJECTS"
  const SaveTerrainName: string := "SAVE TERRAIN"
  const LoadObjectsName: string := "LOAD OBJECTS"
  const LoadAttributesName: string := "LOAD ATTRIBUTES"

  /** The names the save helper binds. */
  const SaveNames: set<string> := {SaveAttributesName, SaveObjectsName, SaveTerrainName, SaveAllName}

  /** The names the load helper binds. */
  const LoadNames: set<string> := {LoadObjectsName, LoadAttributesName}

  /** _factory(query_type, file_name): Save on the given file with args.binary. */
  function SaveOn(queryType: string, query: Category, fileName: Option<string>, binary: bool): Command
  {
    Save(FileFields(queryType, query, fileName, binary))
  }

  /** The four bindings the save helper makes, in the order it makes them. */
  function SaveBindings(args: Args, m: map<string, Command>): map<string, Command>
  {
    var file := Formatted(args.file);
    m[SaveAttributesName := SaveOn("attributes", WORLD, args.file, args.binary)]
     [SaveObjectsName := SaveOn("objects", OBJECT, args.file, args.binary)]
     [SaveTerrainName := SaveOn("terrain", TERRAIN, args.file, args.binary)]
     [SaveAllName := Aggregate([SaveOn("attributes", WORLD, Some(file + "_attributes"), args.binary),
                                SaveOn("objects", OBJECT, Some(file + "_objects"), args.binary),
                                SaveOn("terrain", TERRAIN, Some(file + "_terrain"), args.binary)])]
  }

  /** register(invoker, instance, args) of the save helper: every _factory call
      resolves its lower-case query type, and each register returns the
      invoker the next one is called on. */
  method RegisterSave(invoker: LocalInvoker, args: Args)
    modifies invoker
    ensures invoker.commands == SaveBindings(args, old(invoker.commands))
    ensures invoker.history == old(invoker.history)
  {
    ResolveAll();
    var file := Formatted(args.file);
    var first := NewSave("attributes", args.file, args.binary).value;
    var second := NewSave("objects", args.file, args.binary).value;
    var third := NewSave("terrain", args.file, args.binary).value;
    var all := Aggregate([NewSave("attributes", Some(file + "_attributes"), args.binary).value,
                          NewSave("objects", Some(file + "_objects"), args.binary).value,
                          NewSave("terrain", Some(file + "_terrain"), args.binary).value]);
    var s1 := invoker.Register(SaveAttributesName, first);
    var s2 := s1.Register(SaveObjectsName, second);
    var s3 := s2.Register(SaveTerrainName, third);
    var _ := s3.Register(SaveAllName, all);
  }

  /** The bindings the load helper makes, LOAD OBJECTS first. LoadAttributes is
      not part of this model, so the command it builds is a parameter. */
  function LoadBindings(args: Args, loadAttributes: Command, m: map<string, Command>): map<string, Command>
  {
    m[LoadObjectsName := NewLoadObjects(args.file, args.binary)][LoadAttributesName := loadAttributes]
  }

  /** register(invoker, instance, args) of the load helper. */
  method RegisterLoad(invoker: LocalInvoker, args: Args, loadAttributes: Command)
    modifies invoker
    ensures invoker.commands == LoadBindings(args, loadAttributes, old(invoker.commands))
    ensures invoker.history == old(invoker.history)
  {
    var s1 := invoker.Register(LoadObjectsName, NewLoadObjects(args.file, args.binary));
    var _ := s1.Register(LoadAttributesName, loadAttributes);
  }

  /** The save helper binds exactly its four names, each to its Save or to the
      SAVE ALL aggregate, and leaves every other entry as it was. */
  lemma SaveBindingsExact(args: Args, m: map<string, Command>)
    ensures SaveBindings(args, m).Keys == m.Keys + SaveNames
    ensures forall n :: n in m && n !in SaveNames ==> SaveBindings(args, m)[n] == m[n]
    ensures SaveBindings(args, m)[SaveAttributesName] == SaveOn("attributes", WORLD, args.file, args.binary)
    ensures SaveBindings(args, m)[SaveObjectsName] == SaveOn("objects", OBJECT, args.file, args.binary)
    ensures SaveBindings(args, m)[SaveTerrainName] == SaveOn("terrain", TERRAIN, args.file, args.binary)
    ensures SaveBindings(args, m)[SaveAllName].Aggregate?
    ensures |SaveBindings(args, m)[SaveAllName].commands| == 3
  {
    assert SaveAttributesName != SaveObjectsName && SaveAttributesName != SaveTerrainName;
    assert SaveAttributesName != SaveAllName && SaveObjectsName != SaveTerrainName;
    assert SaveObjectsName != SaveAllName && SaveTerrainName != SaveAllName;
  }

  /** With a truthy file, the helper's SAVE ALL is create_loaded's, and each of
      its per-category Saves is create_loaded's except for the spelling of the
      query type it keeps. */
  lemma SaveAgreesWithLoaded(args: Args, m: map<string, Command>)
    ensures Truthy(args.file) ==> SaveBindings(args, m)[SaveAllName] == SaveAll(args.file.value, args.binary)
    ensures forall k :: 0 <= k < 3 ==>
              EntryName(2, k) in SaveBindings(args, m) && SaveBindings(args, m)[EntryName(2, k)].Save?
              && SaveBindings(args, m)[EntryName(2, k)].file.(queryType := Items[k]) == Entry(args, 2, k).file
  {
    SaveBindingsExact(args, m);
    assert EntryName(2, 0) == SaveAttributesName;
    assert EntryName(2, 1) == SaveObjectsName;
    assert EntryName(2, 2) == SaveTerrainName;
  }

  /** The load helper binds exactly LOAD OBJECTS and LOAD ATTRIBUTES; it adds
      neither LOAD TERRAIN nor LOAD ALL, and leaves every other entry as it
      was. */
  lemma LoadBindingsExact(args: Args, loadAttributes: Command, m: map<string, Command>)
    ensures LoadBindings(args, loadAttributes, m).Keys == m.Keys + LoadNames
    ensures forall n :: n in m && n !in LoadNames ==> LoadBindings(args, loadAttributes, m)[n] == m[n]
    ensures LoadBindings(args, loadAttributes, m)[LoadObjectsName] == NewLoadObjects(args.file, args.binary)
    ensures LoadBindings(args, loadAttributes, m)[LoadAttributesName] == loadAttributes
    ensures EntryName(1, 2) in LoadBindings(args, loadAttributes, m) <==> EntryName(1, 2) in m
    ensures LoadAllName in LoadBindings(args, loadAttributes, m) <==> LoadAllName in m
  {
    assert LoadObjectsName != LoadAttributesName;
    assert EntryName(1, 2)[5] == 'T' && LoadObjectsName[5] == 'O';
    assert |EntryName(1, 2)| != |LoadAttributesName|;
    assert LoadAllName !in LoadNames;
  }

  /** The values argparse accepts for --type. */
  const TypeChoices: set<string> := {"all", "terrain", "objects", "attributes"}

  /** The name the command line invokes: DELETE when --delete is given, else
      LOAD when --load is, else SAVE; a space; the type, upper-cased. */
  function ActionName(load: bool, delete: bool, queryType: string): string
  {
    (if delete then "DELETE" else if load then "LOAD" else "SAVE") + " " + Upper(queryType)
  }

  /** Upper-casing the four choices gives "ALL" and the three items. */
  lemma UpperChoice(t: string)
    requires t in TypeChoices
    ensures t == "all" ==> Upper(t) == "ALL"
    ensures t == "attributes" ==> Upper(t) == Items[0]
    ensures t == "objects" ==> Upper(t) == Items[1]
    ensures t == "terrain" ==> Upper(t) == Items[2]
  {
    UpperAll();
    ResolveAttributes();
    ResolveObjects();
    ResolveTerrain();
  }

  /** Every name the command line can ask for is registered by create_loaded,
      except LOAD ALL and SAVE ALL when no file was given. */
  lemma ActionRegistered(args: Args, load: bool, delete: bool, t: string)
    requires t in TypeChoices
    ensures ActionName(load, delete, t) in Registry(args) <==> (t != "all" || delete || Truthy(args.file))
  {
    UpperChoice(t);
    var a := if delete then 0 else if load then 1 else 2;
    assert ActionName(load, delete, t) == Actions[a] + " " + Upper(t);
    if t != "all" {
      var k := if t == "attributes" then 0 else if t == "objects" then 1 else 2;
      assert Upper(t) == Items[k];
      ItemRegistered(args, a, k);
    } else {
      AllRegistered(args, a);
    }
  }

  /** Each action-item name is registered. */
  lemma ItemRegistered(args: Args, a: nat, k: nat)
    requires a < 3 && k < 3
    ensures Actions[a] + " " + Items[k] in Registry(args)
  {
    LoadedLookup(args);
    assert EntryName(a, k) in Registry(args);
  }

  /** DELETE ALL is registered; LOAD ALL and SAVE ALL only with a truthy file. */
  lemma AllRegistered(args: Args, a: nat)
    requires a < 3
    ensures Actions[a] + " " + "ALL" in Registry(args) <==> (a == 0 || Truthy(args.file))
  {
    LoadedKeys(args);
    LoadedLookup(args);
    if a == 0 {
      assert Actions[a] + " " + "ALL" == DeleteAllName;
    } else if a == 1 {
      assert Actions[a] + " " + "ALL" == LoadAllName;
    } else {
      assert Actions[a] + " " + "ALL" == SaveAllName;
    }
  }

  /** No command create_loaded registers owns a generator. */
  lemma RegistryOwnsNoGenerator(args: Args)
    ensures forall n :: n in Registry(args) ==> Generators(Registry(args)[n]) == {}
  {
    TableOwnsNoGenerator(args, 9);
    var m := Table(args, 9);
    if Truthy(args.file) {
      var file, binary := args.file.value, args.binary;
      PlainAggregate(DeleteAll());
      PlainAggregate(LoadAll(file, binary));
      PlainAggregate(SaveAll(file, binary));
      forall n | n in Registry(args)
        ensures Generators(Registry(args)[n]) == {}
      {
        if n != DeleteAllName && n != LoadAllName && n != SaveAllName {
          assert Registry(args)[n] == m[n];
        }
      }
    } else {
      PlainAggregate(DeleteAll());
      forall n | n in Registry(args)
        ensures Generators(Registry(args)[n]) == {}
      {
        if n != DeleteAllName {
          assert Registry(args)[n] == m[n];
        }
      }
    }
  }

  /** The action-item commands own no generator. */
  lemma {:induction false} TableOwnsNoGenerator(args: Args, n: nat)
    requires n <= 9
    ensures forall name :: name in Table(args, n) ==> Generators(Table(args, n)[name]) == {}
  {
    if n > 0 {
      TableOwnsNoGenerator(args, n - 1);
    }
  }

  /** An aggregate of three commands none of which is an iterator or an
      aggregate owns no generator. */
  lemma PlainAggregate(c: Command)
    requires c.Aggregate? && |c.commands| == 3
    requires !c.commands[0].Iterator? && !c.commands[0].Aggregate?
    requires !c.commands[1].Iterator? && !c.commands[1].Aggregate?
    requires !c.commands[2].Iterator? && !c.commands[2].Aggregate?
    ensures Generators(c) == {}
  {
    assert GeneratorsFrom(c, 3) == {};
    assert GeneratorsFrom(c, 2) == {};
    assert GeneratorsFrom(c, 1) == {};
    assert GeneratorsFrom(c, 0) == {};
  }

  /** The command line's last step, as it is evidently meant: invoke the
      selected name on the invoker create_loaded returns. */
  method InvokeSelected(args: Args, load: bool, delete: bool, t: string, world: World, disk: Disk, lib: Library)
    returns (outcome: Outcome)
    requires t in TypeChoices
    modifies world, disk
    ensures ActionName(load, delete, t) in Registry(args) <==> (t != "all" || delete || Truthy(args.file))
    ensures var name := ActionName(load, delete, t);
      if name in Registry(args) then
        (Snapshot(world, disk, {}), outcome)
        == Run(Registry(args)[name], Env(world.sdk, disk.locale, lib), old(Snapshot(world, disk, {})))
      else
        outcome == Fail(NotFound(name)) && Snapshot(world, disk, {}) == old(Snapshot(world, disk, {}))
  {
    var actor := LocalInvoker.CreateLoaded(args);
    var name := ActionName(load, delete, t);
    ActionRegistered(args, load, delete, t);
    RegistryOwnsNoGenerator(args);
    var _, o := actor.Invoke(name, world, disk, lib, {});
    outcome := o;
  }

  /** The command line's last step as written: create_loaded returns None, so
      looking up invoke on it raises AttributeError and nothing runs. */
  method InvokeSelectedAsWritten(args: Args, load: bool, delete: bool, t: string) returns (outcome: Outcome)
    ensures outcome == Fail(AttributeError("invoke"))
  {
    var actor := LocalInvoker.CreateLoadedAsWritten(args);
    assert actor == null;
    outcome := Fail(AttributeError("invoke"));
  }
}
