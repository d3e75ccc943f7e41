/** The commands' execute methods, run against the world, the file system and
    the generators as objects, each proved to do what `Run` says. */
module Execution {
  import opened Wrappers
  import opened Codec
  import opened Query
  import opened World
  import opened Store
  import opened Func
  import opened Commands
  import opened Semantics

  /** The state `Run` speaks of, read off the objects: the world's trace, the
      files, and what each generator in `gens` has still to yield. */
  function Snapshot(world: World, disk: Disk, gens: set<Generator>): State
    reads world, disk, gens
  {
    State(world.trace, disk.files, map g | g in gens :: g.rest)
  }

  /** on_each over the records with a callback that issues one SDK call per
      record: the loop of Load, LoadQuery and Iterator. */
  method IssueEach(world: World, disk: Disk, ghost pending: map<Generator, Stream<Record>>, items: Stream<Record>,
                   action: Record -> Result<Call>, ignore: bool)
    returns (outcome: Outcome)
    modifies world
    ensures (State(world.trace, disk.files, pending), outcome)
         == Drain(State(old(world.trace), disk.files, pending), items, IssueAttempt(world.sdk, action), ignore)
  {
    ghost var start := State(world.trace, disk.files, pending);
    ghost var cb := IssueAttempt(world.sdk, action);
    var xs := items.items;
    var i := 0;
    while i < |xs|
      invariant 0 <= i <= |xs|
      invariant State(world.trace, disk.files, pending) == Apply(start, FlatMap(cb, xs[..i]))
      invariant !ignore ==> i <= FirstFailure(cb, xs)
    {
      assert xs[..i + 1][..i] == xs[..i];
      ghost var before := FlatMap(cb, xs[..i]);
      var call := action(xs[i]);
      if call.Err? {
        assert cb(xs[i]) == Attempt([], Fail(call.error));
        assert FlatMap(cb, xs[..i + 1]) == before + [];
        assert before + [] == before;
        if !ignore {
          OnEachAborting(items, cb, i);
          return Fail(call.error);
        }
      } else {
        ghost var prior := State(world.trace, disk.files, pending);
        var issued := world.Issue(call.value);
        assert cb(xs[i]) == Attempt([Issued(call.value)], issued);
        assert FlatMap(cb, xs[..i + 1]) == before + [Issued(call.value)];
        assert State(world.trace, disk.files, pending) == prior.(trace := prior.trace + [call.value]);
        ApplyOne(start, before, Issued(call.value));
        if issued.Fail? && !ignore {
          OnEachAborting(items, cb, i);
          return issued;
        }
      }
      if !ignore {
        FirstFailurePast(cb, xs, i);
      }
      i := i + 1;
    }
    assert xs[..i] == xs;
    if ignore {
      OnEachIgnoring(items, cb);
    } else {
      assert FirstFailure(cb, xs) == |xs|;
    }
    outcome := Propagate(items.fault);
  }

  /** on_each over the records with Save's callback, errors ignored: each
      record that serializes is appended to the file as one line. */
  method SaveEach(world: World, disk: Disk, ghost pending: map<Generator, Stream<Record>>, items: Stream<Record>,
                  file: Option<string>, line: Record -> Result<Data>)
    returns (outcome: Outcome)
    modifies disk
    ensures (State(world.trace, disk.files, pending), outcome)
         == Drain(State(world.trace, old(disk.files), pending), items, SaveAttempt(disk.locale, file, line), true)
  {
    ghost var start := State(world.trace, disk.files, pending);
    ghost var cb := SaveAttempt(disk.locale, file, line);
    var xs := items.items;
    var i := 0;
    while i < |xs|
      invariant 0 <= i <= |xs|
      invariant State(world.trace, disk.files, pending) == Apply(start, FlatMap(cb, xs[..i]))
    {
      assert xs[..i + 1][..i] == xs[..i];
      ghost var before := FlatMap(cb, xs[..i]);
      var data := line(xs[i]);
      if data.Err? {
        assert FlatMap(cb, xs[..i + 1]) == before + [];
        assert before + [] == before;
      } else {
        ghost var prior := State(world.trace, disk.files, pending);
        var appended := disk.AppendTo(file, data.value);
        match OpenPath(file)
        case Err(_) =>
          assert State(world.trace, disk.files, pending) == prior;
          assert FlatMap(cb, xs[..i + 1]) == before + [];
          assert before + [] == before;
        case Ok(path) =>
          assert State(world.trace, disk.files, pending) == Step(prior, Write(path, Written(disk.locale, data.value)));
          ApplyOne(start, before, Write(path, Written(disk.locale, data.value)));
      }
      i := i + 1;
    }
    assert xs[..i] == xs;
    OnEachIgnoring(items, cb);
    outcome := Propagate(items.fault);
  }

  /** command.execute(). */
  method Execute(c: Command, world: World, disk: Disk, lib: Library, ghost gens: set<Generator>)
    returns (outcome: Outcome)
    requires Generators(c) <= gens
    modifies world, disk, Generators(c)
    ensures (Snapshot(world, disk, gens), outcome)
         == Run(c, Env(world.sdk, disk.locale, lib), old(Snapshot(world, disk, gens)))
    decreases c, 1
  {
    match c
    case Save(_) =>
      outcome := ExecuteSave(c, world, disk, lib, gens);
    case SaveQuery(_, _, _) =>
      outcome := ExecuteSave(c, world, disk, lib, gens);
    case Load(_) =>
      outcome := ExecuteLoad(c, world, disk, lib, gens);
    case LoadQuery(_, _, _, _) =>
      outcome := ExecuteLoadQuery(c, world, disk, lib, gens);
    case Delete(_, target) =>
      ghost var start := Snapshot(world, disk, gens);
      outcome := world.Issue(BulkDelete(target));
      assert Snapshot(world, disk, gens).pending == start.pending;
    case Iterator(_, _) =>
      outcome := ExecuteIterator(c, world, disk, lib, gens);
    case Aggregate(_) =>
      outcome := ExecuteAggregate(c, world, disk, lib, gens);
  }

  /** Save.execute and SaveQuery.execute. */
  method ExecuteSave(c: Command, world: World, disk: Disk, lib: Library, ghost gens: set<Generator>)
    returns (outcome: Outcome)
    requires c.Save? || c.SaveQuery?
    modifies disk
    ensures (Snapshot(world, disk, gens), outcome)
         == Run(c, Env(world.sdk, disk.locale, lib), old(Snapshot(world, disk, gens)))
  {
    ghost var start := Snapshot(world, disk, gens);
    if c.Save? {
      outcome := SaveEach(world, disk, start.pending, world.sdk.query(c.file.query), c.file.fileName,
                          SaveLine(lib, c.file.binaryMode));
    } else {
      outcome := SaveEach(world, disk, start.pending, world.sdk.query(c.query), c.fileName,
                          SaveQueryLine(lib, c.binaryMode));
    }
    assert Snapshot(world, disk, gens).pending == start.pending;
  }

  /** Load.execute: the file's records, each stripped and dispatched. */
  method ExecuteLoad(c: Command, world: World, disk: Disk, lib: Library, ghost gens: set<Generator>)
    returns (outcome: Outcome)
    requires c.Load?
    modifies world
    ensures (Snapshot(world, disk, gens), outcome)
         == Run(c, Env(world.sdk, disk.locale, lib), old(Snapshot(world, disk, gens)))
  {
    ghost var start := Snapshot(world, disk, gens);
    var records := disk.Load(c.file.fileName, c.file.binaryMode, lib);
    outcome := IssueEach(world, disk, start.pending, records, LoadReceive(c.file.query, world.sdk.attribute), false);
    assert Snapshot(world, disk, gens).pending == start.pending;
  }

  /** LoadQuery.execute: the file's records, each handed to load_function. */
  method ExecuteLoadQuery(c: Command, world: World, disk: Disk, lib: Library, ghost gens: set<Generator>)
    returns (outcome: Outcome)
    requires c.LoadQuery?
    modifies world
    ensures (Snapshot(world, disk, gens), outcome)
         == Run(c, Env(world.sdk, disk.locale, lib), old(Snapshot(world, disk, gens)))
  {
    ghost var start := Snapshot(world, disk, gens);
    var records := disk.Load(c.fileName, c.binaryMode, lib);
    outcome := IssueEach(world, disk, start.pending, records, c.loadFunction, false);
    assert Snapshot(world, disk, gens).pending == start.pending;
  }

  /** Iterator.execute: drains the generator it holds. */
  method ExecuteIterator(c: Command, world: World, disk: Disk, lib: Library, ghost gens: set<Generator>)
    returns (outcome: Outcome)
    requires c.Iterator? && c.generator in gens
    modifies world, c.generator
    ensures (Snapshot(world, disk, gens), outcome)
         == Run(c, Env(world.sdk, disk.locale, lib), old(Snapshot(world, disk, gens)))
  {
    ghost var start := Snapshot(world, disk, gens);
    var g := c.generator;
    var items := g.rest;
    g.rest := Exhausted;
    ghost var drained := start.pending[g := Exhausted];
    assert Snapshot(world, disk, gens).pending == drained;
    outcome := IssueEach(world, disk, drained, items, c.action, true);
    assert Snapshot(world, disk, gens).pending == drained;
  }

  /** Aggregate.execute: each command in turn, until one raises. */
  method ExecuteAggregate(c: Command, world: World, disk: Disk, lib: Library, ghost gens: set<Generator>)
    returns (outcome: Outcome)
    requires c.Aggregate? && Generators(c) <= gens
    modifies world, disk, Generators(c)
    ensures (Snapshot(world, disk, gens), outcome)
         == Run(c, Env(world.sdk, disk.locale, lib), old(Snapshot(world, disk, gens)))
    decreases c, 0
  {
    ghost var env := Env(world.sdk, disk.locale, lib);
    ghost var start := Snapshot(world, disk, gens);
    var i := 0;
    while i < |c.commands|
      invariant 0 <= i <= |c.commands|
      invariant RunFrom(c, i, env, Snapshot(world, disk, gens)) == Run(c, env, start)
    {
      GeneratorsOfPart(c, 0, i);
      outcome := Execute(c.commands[i], world, disk, lib, gens);
      if outcome.Fail? {
        return;
      }
      i := i + 1;
    }
    outcome := Pass;
  }

  /** DeleteObjects(instance): the object query runs here, at construction,
      and the command holds the generator over its results. */
  method NewDeleteObjects(world: World) returns (c: Command)
    ensures c.Iterator? && fresh(c.generator)
    ensures c.Iterator? ==> c.generator.rest == world.sdk.query(OBJECT) && c.action == ObjectDeleteAction
  {
    var g := new Generator(world.sdk.query(OBJECT));
    c := Iterator(g, ObjectDeleteAction);
  }
}
