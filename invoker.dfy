/** The invoker of src/management/invoker/local.py (which
    src/management/invoker.py repeats, adding create_loaded): a registry of
    named commands and the history of the commands it has executed. */
module Invoker {
  import opened Wrappers
  import opened Codec
  import opened Query
  import opened World
  import opened Store
  import opened Commands
  import opened Semantics
  import opened Execution

  /** The message of the KeyError invoke raises for an unknown name. */
  function NotFound(name: string): (e: Error)
    ensures e.KeyError? && e.key == "Command '" + name + "' not found."
  {
    KeyError("Command '" + name + "' not found.")
  }

  class LocalInvoker {
    var commands: map<string, Command>
    /** The executed commands, oldest first; only invoke adds to it. */
    var history: seq<Command>

    constructor ()
      ensures commands == map[] && history == []
    {
      commands := map[];
      history := [];
    }

    /** register(name, command): adds the name or rebinds it; returns the
        invoker itself, so that calls chain. */
    method Register(name: string, command: Command) returns (self: LocalInvoker)
      modifies this
      ensures commands == old(commands)[name := command] && history == old(history)
      ensures self == this
    {
      commands := commands[name := command];
      self := this;
    }

    /** unregister(name): dict.pop without a default, so an absent name raises
        KeyError(name) and changes nothing. */
    method Unregister(name: string) returns (self: LocalInvoker, outcome: Outcome)
      modifies this
      ensures name in old(commands) ==> commands == old(commands) - {name} && outcome == Pass
      ensures name !in old(commands) ==> commands == old(commands) && outcome == Fail(KeyError(name))
      ensures history == old(history) && self == this
    {
      self := this;
      if name !in commands {
        return self, Fail(KeyError(name));
      }
      commands := commands - {name};
      outcome := Pass;
    }

    /** invoke(name): executes the command bound to the name once, then
        appends it to the history; if execute raises, the error escapes before
        the append. Commands are always truthy, so only an absent name is "not
        found". */
    method Invoke(name: string, world: World, disk: Disk, lib: Library, ghost gens: set<Generator>)
      returns (self: LocalInvoker, outcome: Outcome)
      requires name in commands ==> Generators(commands[name]) <= gens
      modifies this, world, disk, if name in commands then Generators(commands[name]) else {}
      ensures self == this && commands == old(commands)
      ensures name !in old(commands) ==>
        outcome == Fail(NotFound(name)) && history == old(history)
        && Snapshot(world, disk, gens) == old(Snapshot(world, disk, gens))
      ensures name in old(commands) ==>
        (Snapshot(world, disk, gens), outcome)
        == Run(old(commands)[name], Env(world.sdk, disk.locale, lib), old(Snapshot(world, disk, gens)))
      ensures name in old(commands) ==>
        history == old(history) + (if outcome.Pass? then [old(commands)[name]] else [])
    {
      self := this;
      if name !in commands {
        return self, Fail(NotFound(name));
      }
      var command := commands[name];
      ghost var env := Env(world.sdk, disk.locale, lib);
      ghost var start := Snapshot(world, disk, gens);
      outcome := Execute(command, world, disk, lib, gens);
      ghost var ran := (Snapshot(world, disk, gens), outcome);
      assert ran == Run(command, env, start);
      if outcome.Fail? {
        return;
      }
      history := history + [command];
      assert Snapshot(world, disk, gens) == ran.0;
    }

    /** create_loaded(instance, args) as it is evidently meant, returning the
        invoker it fills: the nine action-item commands, DELETE ALL, and, when
        args.file is truthy, LOAD ALL and SAVE ALL over the suffixed files. */
    static method CreateLoaded(args: Args) returns (invoker: LocalInvoker)
      ensures fresh(invoker) && invoker.history == []
      ensures invoker.commands == Registry(args)
    {
      invoker := new LocalInvoker();
      var a := 0;
      while a < 3
        invariant 0 <= a <= 3
        invariant invoker.history == [] && fresh(invoker)
        invariant invoker.commands == Table(args, 3 * a)
      {
        RowOfTable(args, a);
        invoker.RegisterItems(args, a);
        a := a + 1;
      }
      invoker.RegisterAggregates(args);
    }

    /** The inner loop of create_loaded for action a: each item in turn. */
    method RegisterItems(args: Args, a: nat)
      requires a < 3
      modifies this
      ensures commands == Row(args, a, 3, old(commands)) && history == old(history)
    {
      var k := 0;
      while k < 3
        invariant 0 <= k <= 3
        invariant history == old(history)
        invariant commands == Row(args, a, k, old(commands))
      {
        RegisterEntry(args, a, k);
        k := k + 1;
      }
    }

    /** One turn of create_loaded's nested loop: actions[name](item) registered
        as f"{name} {item}". */
    method RegisterEntry(args: Args, a: nat, k: nat)
      requires a < 3 && k < 3
      modifies this
      ensures commands == old(commands)[EntryName(a, k) := Entry(args, a, k)] && history == old(history)
    {
      FactoryEntry(args, a, k);
      var command := Factory(args, a, Items[k], args.file);
      var _ := Register(EntryName(a, k), command.value);
    }

    /** The end of create_loaded: DELETE ALL, and LOAD ALL and SAVE ALL when
        args.file is truthy. */
    method RegisterAggregates(args: Args)
      modifies this
      ensures commands == Aggregates(args, old(commands)) && history == old(history)
    {
      ResolveAll();
      var deleteAll := Aggregate([NewDelete("attributes").value, NewDelete("objects").value, NewDelete("terrain").value]);
      assert deleteAll == DeleteAll();
      var _ := Register(DeleteAllName, deleteAll);
      if !Truthy(args.file) {
        return;
      }
      var file := args.file.value;
      var loadAll := Aggregate([NewLoad("attributes", Some(file + "_attributes"), args.binary).value,
                                NewLoad("objects", Some(file + "_objects"), args.binary).value,
                                NewLoad("terrain", Some(file + "_terrain"), args.binary).value]);
      assert loadAll == LoadAll(file, args.binary);
      var _ := Register(LoadAllName, loadAll);
      var saveAll := Aggregate([NewSave("attributes", Some(file + "_attributes"), args.binary).value,
                                NewSave("objects", Some(file + "_objects"), args.binary).value,
                                NewSave("terrain", Some(file + "_terrain"), args.binary).value]);
      assert saveAll == SaveAll(file, args.binary);
      var _ := Register(SaveAllName, saveAll);
    }

    /** create_loaded as written: it fills an invoker and then falls off its
        end (or leaves through the bare return), so it returns None. */
    static method CreateLoadedAsWritten(args: Args) returns (r: LocalInvoker?)
      ensures r == null
    {
      var invoker := CreateLoaded(args);
      r := null;
    }
  }

  /** What create_loaded reads of the command line: getattr(args, 'file',
      None) and getattr(args, 'binary', False). */
  datatype Args = Args(file: Option<string>, binary: bool)

  /** Python truthiness of the file argument: None and "" are false. */
  predicate Truthy(file: Option<string>)
  {
    file.Some? && file.value != ""
  }

  /** The keys of create_loaded's action table, in insertion order, and its
      item list. */
  const Actions: seq<string> := ["DELETE", "LOAD", "SAVE"]
  const Items: seq<string> := ["ATTRIBUTES", "OBJECTS", "TERRAIN"]

  /** f"{name} {item}" for action a and item k. */
  function EntryName(a: nat, k: nat): string
    requires a < 3 && k < 3
  {
    Actions[a] + " " + Items[k]
  }

  /** The category each item names. */
  function ItemCategory(k: nat): Category
  {
    match k
    case 0 => WORLD
    case 1 => OBJECT
    case _ => TERRAIN
  }

  /** actions[name](item): C.Delete, _l_factory or _s_factory, the last two
      with args.binary. */
  function Factory(args: Args, a: nat, item: string, fileName: Option<string>): Result<Command>
    requires a < 3
  {
    match a
    case 0 => NewDelete(item)
    case 1 => NewLoad(item, fileName, args.binary)
    case _ => NewSave(item, fileName, args.binary)
  }

  /** The command create_loaded binds to action a and item k: the item name
      kept verbatim, its category, and for Load and Save args.file and
      args.binary. */
  function Entry(args: Args, a: nat, k: nat): Command
    requires a < 3 && k < 3
  {
    match a
    case 0 => Delete(Items[k], ItemCategory(k))
    case 1 => Load(FileFields(Items[k], ItemCategory(k), args.file, args.binary))
    case _ => Save(FileFields(Items[k], ItemCategory(k), args.file, args.binary))
  }

  const DeleteAllName: string := "DELETE ALL"
  const LoadAllName: string := "LOAD ALL"
  const SaveAllName: string := "SAVE ALL"

  /** Aggregate(Delete('attributes'), Delete('objects'), Delete('terrain')). */
  function DeleteAll(): Command
  {
    Aggregate([Delete("attributes", WORLD), Delete("objects", OBJECT), Delete("terrain", TERRAIN)])
  }

  /** The LOAD ALL aggregate over <file>_attributes, <file>_objects and
      <file>_terrain, in that order. */
  function LoadAll(file: string, binary: bool): Command
  {
    Aggregate([Load(FileFields("attributes", WORLD, Some(file + "_attributes"), binary)),
               Load(FileFields("objects", OBJECT, Some(file + "_objects"), binary)),
               Load(FileFields("terrain", TERRAIN, Some(file + "_terrain"), binary))])
  }

  /** The SAVE ALL aggregate over the same three files. */
  function SaveAll(file: string, binary: bool): Command
  {
    Aggregate([Save(FileFields("attributes", WORLD, Some(file + "_attributes"), binary)),
               Save(FileFields("objects", OBJECT, Some(file + "_objects"), binary)),
               Save(FileFields("terrain", TERRAIN, Some(file + "_terrain"), binary))])
  }

  /** The names create_loaded registers. */
  function LoadedNames(args: Args): set<string>
  {
    (set a, k | 0 <= a < 3 && 0 <= k < 3 :: EntryName(a, k)) + {DeleteAllName}
    + (if Truthy(args.file) then {LoadAllName, SaveAllName} else {})
  }

  /** The registry after the first n registrations of the nested loop, which
      runs over the actions and, inside, over the items. */
  function Table(args: Args, n: nat): map<string, Command>
    requires n <= 9
  {
    if n == 0 then map[]
    else Table(args, n - 1)[EntryName((n - 1) / 3, (n - 1) % 3) := Entry(args, (n - 1) / 3, (n - 1) % 3)]
  }

  /** The registry m with create_loaded's aggregates added to it. */
  function Aggregates(args: Args, m: map<string, Command>): map<string, Command>
  {
    if Truthy(args.file) then
      m[DeleteAllName := DeleteAll()][LoadAllName := LoadAll(args.file.value, args.binary)]
       [SaveAllName := SaveAll(args.file.value, args.binary)]
    else m[DeleteAllName := DeleteAll()]
  }

  /** The registry create_loaded fills. */
  function Registry(args: Args): map<string, Command>
  {
    Aggregates(args, Table(args, 9))
  }

  /** Registering action a with item k is the loop's next registration. */
  lemma TableStep(args: Args, a: nat, k: nat, n: nat)
    requires a < 3 && k < 3 && n == 3 * a + k
    ensures Table(args, n + 1) == Table(args, n)[EntryName(a, k) := Entry(args, a, k)]
  {
    assert n / 3 == a && n % 3 == k;
  }

  /** m with the first k items of action a registered. */
  function Row(args: Args, a: nat, k: nat, m: map<string, Command>): map<string, Command>
    requires a < 3 && k <= 3
  {
    if k == 0 then m else Row(args, a, k - 1, m)[EntryName(a, k - 1) := Entry(args, a, k - 1)]
  }

  /** A whole turn of the outer loop is three registrations of the table. */
  lemma RowOfTable(args: Args, a: nat)
    requires a < 3
    ensures Table(args, 3 * a + 3) == Row(args, a, 3, Table(args, 3 * a))
  {
    var m := Table(args, 3 * a);
    TableStep(args, a, 0, 3 * a);
    assert Row(args, a, 1, m) == Table(args, 3 * a + 1);
    TableStep(args, a, 1, 3 * a + 1);
    assert Row(args, a, 2, m) == Table(args, 3 * a + 2);
    TableStep(args, a, 2, 3 * a + 2);
  }

  /** After n registrations the registry holds exactly the first n names. */
  lemma {:induction false} TableKeys(args: Args, n: nat)
    requires n <= 9
    ensures Table(args, n).Keys == set j | 0 <= j < n :: EntryName(j / 3, j % 3)
  {
    if n > 0 {
      TableKeys(args, n - 1);
    }
  }

  /** Each of the first n names is bound to its own command: no later
      registration overwrites an earlier one. */
  lemma {:induction false} TableLookup(args: Args, n: nat, j: nat)
    requires j < n <= 9
    ensures EntryName(j / 3, j % 3) in Table(args, n)
    ensures Table(args, n)[EntryName(j / 3, j % 3)] == Entry(args, j / 3, j % 3)
  {
    if j < n - 1 {
      TableLookup(args, n - 1, j);
      GridDistinct(j, n - 1);
    }
  }

  /** Different loop positions register different names. */
  lemma GridDistinct(i: nat, j: nat)
    requires i < j < 9
    ensures EntryName(i / 3, i % 3) != EntryName(j / 3, j % 3)
  {
    NamesDistinct();
    assert i / 3 != j / 3 || i % 3 != j % 3;
  }

  /** The nine names, by index, are the nine names by action and item. */
  lemma GridIndex()
    ensures (set j | 0 <= j < 9 :: EntryName(j / 3, j % 3)) == set a, k | 0 <= a < 3 && 0 <= k < 3 :: EntryName(a, k)
  {
    var byIndex := set j | 0 <= j < 9 :: EntryName(j / 3, j % 3);
    var byPair := set a, k | 0 <= a < 3 && 0 <= k < 3 :: EntryName(a, k);
    forall a, k | 0 <= a < 3 && 0 <= k < 3
      ensures EntryName(a, k) in byIndex
    {
      var j := 3 * a + k;
      assert j / 3 == a && j % 3 == k;
      assert EntryName(j / 3, j % 3) in byIndex;
    }
    forall j | 0 <= j < 9
      ensures EntryName(j / 3, j % 3) in byPair
    {
      var a, k := j / 3, j % 3;
      assert EntryName(a, k) in byPair;
    }
  }

  /** create_loaded registers exactly LoadedNames: every action with every
      item, DELETE ALL, and LOAD ALL and SAVE ALL precisely when args.file is
      truthy. */
  lemma LoadedKeys(args: Args)
    ensures Registry(args).Keys == LoadedNames(args)
    ensures Truthy(args.file) <==> LoadAllName in Registry(args)
    ensures Truthy(args.file) <==> SaveAllName in Registry(args)
  {
    TableKeys(args, 9);
    GridIndex();
    OutsideGrid();
    var grid := set a, k | 0 <= a < 3 && 0 <= k < 3 :: EntryName(a, k);
    assert LoadAllName !in grid && SaveAllName !in grid;
  }

  /** Each registered name is bound to the command create_loaded built for
      it, whatever registrations follow it. */
  lemma LoadedLookup(args: Args)
    ensures forall a, k :: 0 <= a < 3 && 0 <= k < 3 ==>
              EntryName(a, k) in Registry(args) && Registry(args)[EntryName(a, k)] == Entry(args, a, k)
    ensures DeleteAllName in Registry(args) && Registry(args)[DeleteAllName] == DeleteAll()
    ensures Truthy(args.file) ==>
              LoadAllName in Registry(args) && Registry(args)[LoadAllName] == LoadAll(args.file.value, args.binary)
    ensures Truthy(args.file) ==>
              SaveAllName in Registry(args) && Registry(args)[SaveAllName] == SaveAll(args.file.value, args.binary)
  {
    OutsideGrid();
    assert DeleteAllName != LoadAllName && DeleteAllName != SaveAllName && LoadAllName != SaveAllName;
    forall a, k | 0 <= a < 3 && 0 <= k < 3
      ensures EntryName(a, k) in Registry(args) && Registry(args)[EntryName(a, k)] == Entry(args, a, k)
    {
      assert (3 * a + k) / 3 == a && (3 * a + k) % 3 == k;
      TableLookup(args, 9, 3 * a + k);
    }
  }

  /** The nine action-item names are pairwise different. */
  lemma NamesDistinct()
    ensures forall a, k, a2, k2 ::
              (0 <= a < 3 && 0 <= k < 3 && 0 <= a2 < 3 && 0 <= k2 < 3 && EntryName(a, k) == EntryName(a2, k2))
              ==> a == a2 && k == k2
  {
    forall a, k, a2, k2 | 0 <= a < 3 && 0 <= k < 3 && 0 <= a2 < 3 && 0 <= k2 < 3 && EntryName(a, k) == EntryName(a2, k2)
      ensures a == a2 && k == k2
    {
      assert EntryName(a, k)[0] == Actions[a][0];
      assert EntryName(a2, k2)[0] == Actions[a2][0];
      assert a == a2;
      assert EntryName(a, k)[|Actions[a]| + 1] == Items[k][0];
      assert EntryName(a2, k2)[|Actions[a]| + 1] == Items[k2][0];
    }
  }

  /** The three ALL names are none of the nine. */
  lemma OutsideGrid()
    ensures forall a, k :: 0 <= a < 3 && 0 <= k < 3 ==>
              EntryName(a, k) != DeleteAllName && EntryName(a, k) != LoadAllName && EntryName(a, k) != SaveAllName
  {
    forall a, k | 0 <= a < 3 && 0 <= k < 3
      ensures |EntryName(a, k)| > |DeleteAllName|
    {
    }
  }

  /** Each action-item pair builds without raising, and builds Entry. */
  lemma FactoryEntry(args: Args, a: nat, k: nat)
    requires a < 3 && k < 3
    ensures Factory(args, a, Items[k], args.file) == Ok(Entry(args, a, k))
  {
    match k
    case 0 =>
      ResolveCapitalAttributes();
      FactoryResolved(args, a, 0);
    case 1 =>
      ResolveCapitalObjects();
      FactoryResolved(args, a, 1);
    case 2 =>
      ResolveCapitalTerrain();
      FactoryResolved(args, a, 2);
  }

  /** An item whose name resolves to its category builds Entry. */
  lemma FactoryResolved(args: Args, a: nat, k: nat)
    requires a < 3 && k < 3 && Resolve(Items[k]) == Ok(ItemCategory(k))
    ensures Factory(args, a, Items[k], args.file) == Ok(Entry(args, a, k))
  {
    var item, c := Items[k], ItemCategory(k);
    ConstructorsResolved(item, c);
    match a
    case 0 => assert Entry(args, a, k) == Delete(item, c);
    case 1 => assert Entry(args, a, k) == Load(FileFields(item, c, args.file, args.binary));
    case 2 => assert Entry(args, a, k) == Save(FileFields(item, c, args.file, args.binary));
  }

  /** The lower-case names of the ALL aggregates build without raising. */
  lemma ResolveAll()
    ensures NewDelete("attributes") == Ok(Delete("attributes", WORLD))
    ensures NewDelete("objects") == Ok(Delete("objects", OBJECT))
    ensures NewDelete("terrain") == Ok(Delete("terrain", TERRAIN))
    ensures forall f, b :: NewLoad("attributes", f, b) == Ok(Load(FileFields("attributes", WORLD, f, b)))
    ensures forall f, b :: NewLoad("objects", f, b) == Ok(Load(FileFields("objects", OBJECT, f, b)))
    ensures forall f, b :: NewLoad("terrain", f, b) == Ok(Load(FileFields("terrain", TERRAIN, f, b)))
    ensures forall f, b :: NewSave("attributes", f, b) == Ok(Save(FileFields("attributes", WORLD, f, b)))
    ensures forall f, b :: NewSave("objects", f, b) == Ok(Save(FileFields("objects", OBJECT, f, b)))
    ensures forall f, b :: NewSave("terrain", f, b) == Ok(Save(FileFields("terrain", TERRAIN, f, b)))
  {
    ResolveAttributes();
    ResolveObjects();
    ResolveTerrain();
  }
}
