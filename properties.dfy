/** What the commands promise, stated over `Run`: where a save puts its lines,
    that a load gives back what a save wrote, how a load stops, and how
    deletes, aggregates and iterators behave when executed. */
module Properties {
  import opened Wrappers
  import opened Codec
  import opened Query
  import opened World
  import opened Store
  import opened Func
  import opened Commands
  import opened Semantics

  // ----- records, texts and calls -----

  /** Every text Save writes is one line that json.loads turns back into the
      record it was made from, and the two lists line up. */
  lemma {:induction false} SavedPairs(loads: string -> Result<Record>, dumps: Record -> Result<string>, records: seq<Record>)
    requires Inverts(loads, dumps)
    ensures var texts := SavedTexts(dumps, records);
      var rs := SavedRecords(dumps, records);
      |texts| == |rs|
      && forall i :: 0 <= i < |texts| ==> '\n' !in texts[i] && loads(texts[i] + "\n") == Ok(rs[i])
    decreases |records|
  {
    if records != [] {
      var n := |records| - 1;
      SavedPairs(loads, dumps, records[..n]);
    }
  }

  /** A record is saved only if it was yielded. */
  lemma {:induction false} SavedFromRecords(dumps: Record -> Result<string>, records: seq<Record>)
    ensures forall r :: r in SavedRecords(dumps, records) ==> r in records
    decreases |records|
  {
    if records != [] {
      var n := |records| - 1;
      SavedFromRecords(dumps, records[..n]);
      assert forall r :: r in records[..n] ==> r in records;
    }
  }

  /** When every record serializes, all of them are saved, in order. */
  lemma {:induction false} SavedAll(dumps: Record -> Result<string>, records: seq<Record>)
    requires forall r :: r in records ==> dumps(r).Ok?
    ensures SavedRecords(dumps, records) == records
    decreases |records|
  {
    if records != [] {
      var n := |records| - 1;
      var init := records[..n];
      assert records[n] in records;
      forall r | r in init
        ensures dumps(r).Ok?
      {
        assert r in records;
      }
      SavedAll(dumps, init);
    }
  }

  /** When every call can be computed, one call is issued per record, in order. */
  lemma {:induction false} IssuedCallsAll(action: Record -> Result<Call>, records: seq<Record>)
    requires forall r :: r in records ==> action(r).Ok?
    ensures var calls := IssuedCalls(action, records);
      |calls| == |records| && forall i :: 0 <= i < |records| ==> calls[i] == action(records[i]).value
    decreases |records|
  {
    if records != [] {
      var n := |records| - 1;
      var init := records[..n];
      assert records[n] in records;
      forall r | r in init
        ensures action(r).Ok?
      {
        assert r in records;
      }
      IssuedCallsAll(action, init);
      assert IssuedCalls(action, records) == IssuedCalls(action, init) + [action(records[n]).value];
      assert forall i :: 0 <= i < n ==> records[i] == init[i];
    }
  }

  /** The calls issued for two runs of records are those of each, in order. */
  lemma {:induction false} IssuedCallsAppend(action: Record -> Result<Call>, xs: seq<Record>, ys: seq<Record>)
    ensures IssuedCalls(action, xs + ys) == IssuedCalls(action, xs) + IssuedCalls(action, ys)
    decreases |ys|
  {
    if ys == [] {
      assert xs + ys == xs;
    } else {
      var n := |ys| - 1;
      assert (xs + ys)[..|xs + ys| - 1] == xs + ys[..n];
      IssuedCallsAppend(action, xs, ys[..n]);
    }
  }

  /** Issuing one call per record extends the trace by exactly those calls and
      changes nothing else. */
  lemma {:induction false} IssueEffects(st: State, sdk: Sdk, action: Record -> Result<Call>, records: seq<Record>)
    ensures Apply(st, FlatMap(IssueAttempt(sdk, action), records)) == st.(trace := st.trace + IssuedCalls(action, records))
    decreases |records|
  {
    var cb := IssueAttempt(sdk, action);
    if records == [] {
      assert st.trace + [] == st.trace;
    } else {
      var n := |records| - 1;
      IssueEffects(st, sdk, action, records[..n]);
      var before := IssuedCalls(action, records[..n]);
      match action(records[n])
      case Err(_) =>
        assert FlatMap(cb, records) == FlatMap(cb, records[..n]) + [];
        assert FlatMap(cb, records[..n]) + [] == FlatMap(cb, records[..n]);
        assert before + [] == before;
      case Ok(call) =>
        ApplyOne(st, FlatMap(cb, records[..n]), Issued(call));
        assert st.trace + before + [call] == st.trace + (before + [call]);
    }
  }

  /** Effects that do nothing leave the state as it was. */
  lemma {:induction false} NoEffects<T>(cb: T -> Attempt<Effect>, xs: seq<T>)
    requires forall x :: x in xs ==> cb(x).effects == []
    ensures FlatMap(cb, xs) == []
    decreases |xs|
  {
    if xs != [] {
      var n := |xs| - 1;
      assert forall x :: x in xs[..n] ==> x in xs;
      NoEffects(cb, xs[..n]);
    }
  }

  lemma ContentExtended(files: map<string, seq<byte>>, path: string, bytes: seq<byte>)
    ensures Content(Extended(files, path, bytes), path) == Content(files, path) + bytes
    ensures forall p :: p != path ==> Content(Extended(files, path, bytes), p) == Content(files, p)
  {
    if bytes == [] {
      assert Content(files, path) + bytes == Content(files, path);
    }
  }

  // ----- Save -----

  /** Save.execute with a usable file name: one line per record that
      serializes, appended in query order at the end of that one file;
      failing records are skipped, the SDK is not called, and only an error
      of the query itself escapes. */
  lemma SaveRun(f: FileFields, env: Env, st: State)
    requires LawfulText(env.locale)
    requires OpenPath(f.fileName).Ok?
    ensures var items := env.sdk.query(f.query);
      var texts := SavedTexts(env.lib.json.dumps, items.items);
      Run(Save(f), env, st)
      == (st.(files := Extended(st.files, f.fileName.value, Block(env.locale, env.lib.utf8, f.binaryMode, texts))),
          Propagate(items.fault))
  {
    var items := env.sdk.query(f.query);
    var cb := SaveAttempt(env.locale, f.fileName, SaveLine(env.lib, f.binaryMode));
    OnEachIgnoring(items, cb);
    SaveEffects(st, env.locale, env.lib.json.dumps, env.lib, f.binaryMode, f.fileName.value, items.items);
  }

  /** SaveQuery.execute: the same, through json.dumps(data.__dict__). */
  lemma SaveQueryRun(q: Category, file: Option<string>, binaryMode: bool, env: Env, st: State)
    requires LawfulText(env.locale)
    requires OpenPath(file).Ok?
    ensures var items := env.sdk.query(q);
      var texts := SavedTexts(env.lib.json.dumpsPlain, items.items);
      Run(SaveQuery(q, file, binaryMode), env, st)
      == (st.(files := Extended(st.files, file.value, Block(env.locale, env.lib.utf8, binaryMode, texts))),
          Propagate(items.fault))
  {
    var items := env.sdk.query(q);
    var cb := SaveAttempt(env.locale, file, SaveQueryLine(env.lib, binaryMode));
    assert SaveQueryLine(env.lib, binaryMode) == LineOf(env.lib.json.dumpsPlain, env.lib.utf8, binaryMode);
    assert Run(SaveQuery(q, file, binaryMode), env, st) == Drain(st, items, cb, true);
    OnEachIgnoring(items, cb);
    SaveEffects(st, env.locale, env.lib.json.dumpsPlain, env.lib, binaryMode, file.value, items.items);
  }

  /** With no file name or an empty one every append_to raises, and Save
      swallows each error: nothing is written and the command still passes
      unless the query fails. */
  lemma SaveNowhere(f: FileFields, env: Env, st: State)
    requires OpenPath(f.fileName).Err?
    ensures Run(Save(f), env, st) == (st, Propagate(env.sdk.query(f.query).fault))
  {
    var items := env.sdk.query(f.query);
    var cb := SaveAttempt(env.locale, f.fileName, SaveLine(env.lib, f.binaryMode));
    OnEachIgnoring(items, cb);
    NoEffects(cb, items.items);
  }

  /** Two saves to one file leave the file's old content, then the first
      save's lines, then the second's: the file is only ever appended to. */
  lemma SaveTwice(f: FileFields, g: FileFields, env: Env, st: State)
    requires LawfulText(env.locale)
    requires OpenPath(f.fileName).Ok? && g.fileName == f.fileName
    requires env.sdk.query(f.query).fault == None
    ensures var path := f.fileName.value;
      var first := Block(env.locale, env.lib.utf8, f.binaryMode, SavedTexts(env.lib.json.dumps, env.sdk.query(f.query).items));
      var second := Block(env.locale, env.lib.utf8, g.binaryMode, SavedTexts(env.lib.json.dumps, env.sdk.query(g.query).items));
      var after := Then(Run(Save(f), env, st), Save(g), env);
      Content(after.0.files, path) == Content(st.files, path) + first + second
  {
    var path := f.fileName.value;
    var first := Block(env.locale, env.lib.utf8, f.binaryMode, SavedTexts(env.lib.json.dumps, env.sdk.query(f.query).items));
    var second := Block(env.locale, env.lib.utf8, g.binaryMode, SavedTexts(env.lib.json.dumps, env.sdk.query(g.query).items));
    SaveRun(f, env, st);
    var mid := st.(files := Extended(st.files, path, first));
    SaveRun(g, env, mid);
    ContentExtended(st.files, path, first);
    ContentExtended(mid.files, path, second);
  }

  // ----- Load -----

  /** A record the callback loads: its call can be computed and does not raise. */
  predicate Loads(sdk: Sdk, action: Record -> Result<Call>, r: Record)
  {
    action(r).Ok? && !sdk.raises(action(r).value)
  }

  /** The records a Load command reads in state st. */
  function LoadedBy(f: FileFields, env: Env, st: State): Stream<Record>
  {
    Loaded(st.files, f.fileName, f.binaryMode, env.locale, env.lib)
  }

  lemma IssueAttemptPass(sdk: Sdk, action: Record -> Result<Call>, r: Record)
    ensures IssueAttempt(sdk, action)(r).outcome.Pass? <==> Loads(sdk, action, r)
    ensures action(r).Err? ==> IssueAttempt(sdk, action)(r).outcome == Fail(action(r).error)
    ensures action(r).Ok? && sdk.raises(action(r).value) ==> IssueAttempt(sdk, action)(r).outcome == Fail(SdkError)
  {
  }

  /** on_each over SDK calls when every record loads: one call per record, in
      order, and only the stream's own error escapes. */
  lemma IssueAll(st: State, sdk: Sdk, action: Record -> Result<Call>, items: Stream<Record>, ignore: bool)
    requires forall r :: r in items.items ==> Loads(sdk, action, r)
    ensures Drain(st, items, IssueAttempt(sdk, action), ignore)
         == (st.(trace := st.trace + IssuedCalls(action, items.items)), Propagate(items.fault))
  {
    var cb := IssueAttempt(sdk, action);
    forall r | r in items.items
      ensures cb(r).outcome.Pass?
    {
      IssueAttemptPass(sdk, action, r);
    }
    OnEachNoFailure(items, cb, ignore);
    IssueEffects(st, sdk, action, items.items);
  }

  /** on_each over SDK calls, ignoring errors: a call for every record whose
      call can be computed, raising or not, and only the stream's own error
      escapes. */
  lemma IssueIgnoring(st: State, sdk: Sdk, action: Record -> Result<Call>, items: Stream<Record>)
    ensures Drain(st, items, IssueAttempt(sdk, action), true)
         == (st.(trace := st.trace + IssuedCalls(action, items.items)), Propagate(items.fault))
  {
    OnEachIgnoring(items, IssueAttempt(sdk, action));
    IssueEffects(st, sdk, action, items.items);
  }

  /** on_each over SDK calls, not ignoring errors: the first record that does
      not load ends the loop with its error, after the calls for the records
      up to and including it. */
  lemma IssueStops(st: State, sdk: Sdk, action: Record -> Result<Call>, items: Stream<Record>, k: nat)
    requires k < |items.items| && !Loads(sdk, action, items.items[k])
    requires forall j :: 0 <= j < k ==> Loads(sdk, action, items.items[j])
    ensures Drain(st, items, IssueAttempt(sdk, action), false)
         == (st.(trace := st.trace + IssuedCalls(action, items.items[..k + 1])),
             Fail(if action(items.items[k]).Err? then action(items.items[k]).error else SdkError))
  {
    var cb := IssueAttempt(sdk, action);
    forall j | 0 <= j < k
      ensures cb(items.items[j]).outcome.Pass?
    {
      IssueAttemptPass(sdk, action, items.items[j]);
    }
    IssueAttemptPass(sdk, action, items.items[k]);
    OnEachAborting(items, cb, k);
    IssueEffects(st, sdk, action, items.items[..k + 1]);
  }

  /** Load.execute when every record loads: one SDK call per record of the
      file, in file order; the files are untouched, and only an error of
      reading the file escapes. */
  lemma LoadRun(f: FileFields, env: Env, st: State)
    requires forall r :: r in LoadedBy(f, env, st).items ==> Loads(env.sdk, LoadReceive(f.query, env.sdk.attribute), r)
    ensures var items := LoadedBy(f, env, st);
      Run(Load(f), env, st)
      == (st.(trace := st.trace + IssuedCalls(LoadReceive(f.query, env.sdk.attribute), items.items)), Propagate(items.fault))
  {
    IssueAll(st, env.sdk, LoadReceive(f.query, env.sdk.attribute), LoadedBy(f, env, st), false);
  }

  /** Load.execute does not ignore errors: the first record that fails to load
      (its call cannot be computed, or the call raises) ends the command with
      that error, after the calls for the records up to and including it. */
  lemma LoadStops(f: FileFields, env: Env, st: State, k: nat)
    requires var items := LoadedBy(f, env, st).items;
      var action := LoadReceive(f.query, env.sdk.attribute);
      k < |items| && !Loads(env.sdk, action, items[k])
      && forall j :: 0 <= j < k ==> Loads(env.sdk, action, items[j])
    ensures var items := LoadedBy(f, env, st).items;
      var action := LoadReceive(f.query, env.sdk.attribute);
      Run(Load(f), env, st)
      == (st.(trace := st.trace + IssuedCalls(action, items[..k + 1])),
          Fail(if action(items[k]).Err? then action(items[k]).error else SdkError))
  {
    IssueStops(st, env.sdk, LoadReceive(f.query, env.sdk.attribute), LoadedBy(f, env, st), k);
  }

  /** The records a LoadQuery reads in state st. */
  function LoadQueryReads(c: Command, env: Env, st: State): Stream<Record>
    requires c.LoadQuery?
  {
    Loaded(st.files, c.fileName, c.binaryMode, env.locale, env.lib)
  }

  /** LoadQuery.execute when every record loads: load_function gets each
      record as read, in file order; the query category plays no part. */
  lemma LoadQueryRun(c: Command, env: Env, st: State)
    requires c.LoadQuery?
    requires forall r :: r in LoadQueryReads(c, env, st).items ==> Loads(env.sdk, c.loadFunction, r)
    ensures var items := LoadQueryReads(c, env, st);
      && Run(c, env, st) == (st.(trace := st.trace + IssuedCalls(c.loadFunction, items.items)), Propagate(items.fault))
      && Run(c.(query := OBJECT), env, st) == Run(c, env, st)
  {
    IssueAll(st, env.sdk, c.loadFunction, LoadQueryReads(c, env, st), false);
  }

  /** LoadQuery.execute stops at the first record that does not load. */
  lemma LoadQueryStops(c: Command, env: Env, st: State, k: nat)
    requires c.LoadQuery?
    requires var items := LoadQueryReads(c, env, st).items;
      k < |items| && !Loads(env.sdk, c.loadFunction, items[k])
      && forall j :: 0 <= j < k ==> Loads(env.sdk, c.loadFunction, items[j])
    ensures var items := LoadQueryReads(c, env, st).items;
      Run(c, env, st)
      == (st.(trace := st.trace + IssuedCalls(c.loadFunction, items[..k + 1])),
          Fail(if c.loadFunction(items[k]).Err? then c.loadFunction(items[k]).error else SdkError))
  {
    IssueStops(st, env.sdk, c.loadFunction, LoadQueryReads(c, env, st), k);
  }

  /** LoadObjects.execute: one aw_object_load per record of the file, with the
      record's id and number removed, in file order, until one raises. */
  lemma LoadObjectsRun(fileName: Option<string>, binaryMode: bool, env: Env, st: State)
    requires var items := Loaded(st.files, fileName, binaryMode, env.locale, env.lib).items;
      forall r :: r in items ==> !env.sdk.raises(ObjectLoad(Strip(r)))
    ensures var items := Loaded(st.files, fileName, binaryMode, env.locale, env.lib);
      var out := Run(NewLoadObjects(fileName, binaryMode), env, st);
      && out.1 == Propagate(items.fault)
      && |out.0.trace| == |st.trace| + |items.items|
      && out.0.trace[..|st.trace|] == st.trace
      && forall i :: 0 <= i < |items.items| ==> out.0.trace[|st.trace| + i] == ObjectLoad(Strip(items.items[i]))
  {
    var c := NewLoadObjects(fileName, binaryMode);
    var items := Loaded(st.files, fileName, binaryMode, env.locale, env.lib);
    assert LoadQueryReads(c, env, st) == items;
    LoadQueryRun(c, env, st);
    IssuedCallsAll(ObjectLoadFunction, items.items);
  }

  /** Loading a file that the lines of `texts` were appended to, when it did
      not exist before. */
  lemma LoadFreshBlock(files: map<string, seq<byte>>, path: string, binaryMode: bool, locale: TextCodec, lib: Library,
                       texts: seq<string>, rs: seq<Record>)
    requires LawfulText(locale) && LawfulText(lib.utf8)
    requires path != "" && path !in files
    requires |texts| == |rs|
    requires forall i :: 0 <= i < |texts| ==> '\n' !in texts[i] && lib.json.loads(texts[i] + "\n") == Ok(rs[i])
    ensures Loaded(Extended(files, path, Block(locale, lib.utf8, binaryMode, texts)), Some(path), binaryMode, locale, lib)
         == if rs == [] then Stream([], Some(FileNotFound(path))) else Stream(rs, None)
  {
    var block := Block(locale, lib.utf8, binaryMode, texts);
    BlockEmpty(locale, lib.utf8, binaryMode, texts);
    assert OpenPath(Some(path)) == Ok(path);
    if rs == [] {
      assert Extended(files, path, block) == files;
    } else {
      ReadBackFresh(locale, lib, binaryMode, texts, rs);
      assert Content(files, path) == [];
      assert [] + block == block;
      assert path in Extended(files, path, block) && Extended(files, path, block)[path] == block;
    }
  }

  /** A file that held nothing before the block was appended reads back as
      the block's records. */
  lemma ReadBackFresh(locale: TextCodec, lib: Library, binaryMode: bool, texts: seq<string>, rs: seq<Record>)
    requires LawfulText(locale) && LawfulText(lib.utf8)
    requires |texts| == |rs|
    requires forall i :: 0 <= i < |texts| ==> '\n' !in texts[i] && lib.json.loads(texts[i] + "\n") == Ok(rs[i])
    ensures Parsed(SplitLines(Block(locale, lib.utf8, binaryMode, texts)), Decoder(binaryMode, locale, lib.utf8), lib.json)
         == Stream(rs, None)
  {
    var empty: seq<byte> := [];
    var block := Block(locale, lib.utf8, binaryMode, texts);
    var decoder := Decoder(binaryMode, locale, lib.utf8);
    EmptyFile(decoder, lib.json);
    ReadBack(locale, lib, binaryMode, empty, texts, rs);
    assert [] + block == block && [] + rs == rs;
  }

  lemma EmptyFile(decoder: TextCodec, json: JsonCodec)
    ensures Terminated([]) && Parsed(SplitLines([]), decoder, json) == Stream([], None)
  {
  }

  /** A save followed by a load of the same file, when the file did not exist
      before: the load reads back exactly the records the save wrote, in
      order, and without error; if the save wrote nothing, no file was
      created and the load raises FileNotFoundError. */
  lemma SaveLoadFresh(f: FileFields, env: Env, st: State)
    requires Lawful(env.lib) && LawfulText(env.locale)
    requires OpenPath(f.fileName).Ok? && f.fileName.value !in st.files
    requires env.sdk.query(f.query).fault == None
    ensures var saved := SavedRecords(env.lib.json.dumps, env.sdk.query(f.query).items);
      var after := Run(Save(f), env, st).0;
      LoadedBy(f, env, after)
      == if saved == [] then Stream([], Some(FileNotFound(f.fileName.value))) else Stream(saved, None)
  {
    var records := env.sdk.query(f.query).items;
    var texts := SavedTexts(env.lib.json.dumps, records);
    SaveRun(f, env, st);
    SavedPairs(env.lib.json.loads, env.lib.json.dumps, records);
    LoadFreshBlock(st.files, f.fileName.value, f.binaryMode, env.locale, env.lib, texts, SavedRecords(env.lib.json.dumps, records));
  }

  /** Loading a file that the lines of `texts` were appended to, when every
      line it held before parses. */
  lemma LoadAppendedBlock(files: map<string, seq<byte>>, path: string, binaryMode: bool, locale: TextCodec, lib: Library,
                          texts: seq<string>, rs: seq<Record>)
    requires LawfulText(locale) && LawfulText(lib.utf8)
    requires path != "" && path in files && Terminated(files[path])
    requires Loaded(files, Some(path), binaryMode, locale, lib).fault == None
    requires |texts| == |rs|
    requires forall i :: 0 <= i < |texts| ==> '\n' !in texts[i] && lib.json.loads(texts[i] + "\n") == Ok(rs[i])
    ensures Loaded(Extended(files, path, Block(locale, lib.utf8, binaryMode, texts)), Some(path), binaryMode, locale, lib)
         == Stream(Loaded(files, Some(path), binaryMode, locale, lib).items + rs, None)
  {
    var block := Block(locale, lib.utf8, binaryMode, texts);
    var decoder := Decoder(binaryMode, locale, lib.utf8);
    var before := Parsed(SplitLines(files[path]), decoder, lib.json);
    assert OpenPath(Some(path)) == Ok(path);
    assert Loaded(files, Some(path), binaryMode, locale, lib) == before;
    ReadBack(locale, lib, binaryMode, files[path], texts, rs);
    if block == [] {
      assert files[path] + block == files[path];
      assert Extended(files, path, block) == files;
      BlockEmpty(locale, lib.utf8, binaryMode, texts);
      assert before.items + rs == before.items;
    } else {
      assert Extended(files, path, block)[path] == files[path] + block;
    }
  }

  /** A save followed by a load of the same file, when the file existed and
      every line of it parses: the load reads the file's earlier records, then
      the records the save wrote. */
  lemma SaveLoadAppends(f: FileFields, env: Env, st: State)
    requires Lawful(env.lib) && LawfulText(env.locale)
    requires OpenPath(f.fileName).Ok? && f.fileName.value in st.files
    requires Terminated(st.files[f.fileName.value]) && LoadedBy(f, env, st).fault == None
    requires env.sdk.query(f.query).fault == None
    ensures var saved := SavedRecords(env.lib.json.dumps, env.sdk.query(f.query).items);
      var after := Run(Save(f), env, st).0;
      LoadedBy(f, env, after) == Stream(LoadedBy(f, env, st).items + saved, None)
  {
    var records := env.sdk.query(f.query).items;
    var texts := SavedTexts(env.lib.json.dumps, records);
    SaveRun(f, env, st);
    SavedPairs(env.lib.json.loads, env.lib.json.dumps, records);
    LoadAppendedBlock(st.files, f.fileName.value, f.binaryMode, env.locale, env.lib, texts,
                      SavedRecords(env.lib.json.dumps, records));
  }

  /** Backup then restore: saving a category to a new file and loading it back
      issues, for each record the save wrote, the load call the category
      dispatches (the record without id and number), in order. */
  lemma BackupRestore(f: FileFields, env: Env, st: State)
    requires Lawful(env.lib) && LawfulText(env.locale)
    requires OpenPath(f.fileName).Ok? && f.fileName.value !in st.files
    requires env.sdk.query(f.query).fault == None
    requires forall r :: r in env.sdk.query(f.query).items ==> Loads(env.sdk, LoadReceive(f.query, env.sdk.attribute), r)
    ensures var saved := SavedRecords(env.lib.json.dumps, env.sdk.query(f.query).items);
      var calls := IssuedCalls(LoadReceive(f.query, env.sdk.attribute), saved);
      var after := Then(Run(Save(f), env, st), Load(f), env);
      && after.0.trace == st.trace + calls
      && |calls| == |saved|
      && (forall i :: 0 <= i < |saved| ==> Ok(calls[i]) == LoadDispatch(f.query, env.sdk.attribute, Strip(saved[i])))
      && after.1 == if saved == [] then Fail(FileNotFound(f.fileName.value)) else Pass
  {
    var records := env.sdk.query(f.query).items;
    var saved := SavedRecords(env.lib.json.dumps, records);
    var action := LoadReceive(f.query, env.sdk.attribute);
    SaveRun(f, env, st);
    var first := Run(Save(f), env, st);
    var mid := first.0;
    assert first.1 == Pass;
    assert mid.trace == st.trace;
    assert Then(first, Load(f), env) == Run(Load(f), env, mid);
    SaveLoadFresh(f, env, st);
    SavedFromRecords(env.lib.json.dumps, records);
    RestoreCalls(f, env, mid, saved);
  }

  /** The Load half of BackupRestore. */
  lemma RestoreCalls(f: FileFields, env: Env, mid: State, saved: seq<Record>)
    requires f.fileName.Some?
    requires LoadedBy(f, env, mid) == if saved == [] then Stream([], Some(FileNotFound(f.fileName.value))) else Stream(saved, None)
    requires forall r :: r in saved ==> Loads(env.sdk, LoadReceive(f.query, env.sdk.attribute), r)
    ensures var calls := IssuedCalls(LoadReceive(f.query, env.sdk.attribute), saved);
      && Run(Load(f), env, mid) == (mid.(trace := mid.trace + calls), if saved == [] then Fail(FileNotFound(f.fileName.value)) else Pass)
      && |calls| == |saved|
      && (forall i :: 0 <= i < |saved| ==> Ok(calls[i]) == LoadDispatch(f.query, env.sdk.attribute, Strip(saved[i])))
  {
    var action := LoadReceive(f.query, env.sdk.attribute);
    LoadRun(f, env, mid);
    IssuedCallsAll(action, saved);
  }

  /** Load as written: every record raises AttributeError before any SDK
      call, so restoring a non-empty backup issues nothing and fails. */
  lemma LoadAsWrittenFails(f: FileFields, env: Env, st: State)
    requires LoadedBy(f, env, st).items != []
    ensures RunLoadAsWritten(f, env, st) == (st, Fail(AttributeError(QueryTypeAttribute)))
  {
    var stream := LoadedBy(f, env, st);
    var action := LoadReceiveAsWritten(f.query, env.sdk.attribute);
    var cb := IssueAttempt(env.sdk, action);
    OnEachAborting(stream, cb, 0);
    assert stream.items[..1] == [] + [stream.items[0]];
    assert FlatMap(cb, stream.items[..1]) == [];
  }

  // ----- Delete -----

  /** Delete.execute makes one bulk call for its category and touches nothing
      else; executing it again repeats that same call. */
  lemma DeleteRepeats(t: string, c: Category, env: Env, st: State)
    requires !env.sdk.raises(BulkDelete(c))
    ensures Run(Delete(t, c), env, st) == (st.(trace := st.trace + [BulkDelete(c)]), Pass)
    ensures Then(Run(Delete(t, c), env, st), Delete(t, c), env)
         == (st.(trace := st.trace + [BulkDelete(c), BulkDelete(c)]), Pass)
  {
    assert st.trace + [BulkDelete(c)] + [BulkDelete(c)] == st.trace + [BulkDelete(c), BulkDelete(c)];
  }

  /** A bulk call that raises still reaches the world, and the error escapes. */
  lemma DeleteRaises(t: string, c: Category, env: Env, st: State)
    requires env.sdk.raises(BulkDelete(c))
    ensures Run(Delete(t, c), env, st) == (st.(trace := st.trace + [BulkDelete(c)]), Fail(SdkError))
  {
  }

  // ----- Aggregate -----

  /** An empty aggregate does nothing. */
  lemma AggregateEmpty(env: Env, st: State)
    ensures Run(Aggregate([]), env, st) == (st, Pass)
  {
  }

  /** Two aggregates whose remaining commands agree run the same way. */
  lemma {:induction false} RunFromSame(c: Command, d: Command, i: nat, k: nat, env: Env, st: State)
    requires c.Aggregate? && d.Aggregate? && i <= |c.commands| && k <= |d.commands|
    requires c.commands[i..] == d.commands[k..]
    ensures RunFrom(c, i, env, st) == RunFrom(d, k, env, st)
    decreases |c.commands| - i
  {
    if i < |c.commands| {
      assert c.commands[i] == c.commands[i..][0] == d.commands[k];
      assert c.commands[i + 1..] == c.commands[i..][1..];
      assert d.commands[k + 1..] == d.commands[k..][1..];
      var next := Run(c.commands[i], env, st);
      if next.1.Pass? {
        RunFromSame(c, d, i + 1, k + 1, env, next.0);
      }
    }
  }

  lemma {:induction false} RunFromConcat(xs: seq<Command>, ys: seq<Command>, i: nat, env: Env, st: State)
    requires i <= |xs|
    ensures RunFrom(Aggregate(xs + ys), i, env, st) == Then(RunFrom(Aggregate(xs), i, env, st), Aggregate(ys), env)
    decreases |xs| - i
  {
    if i == |xs| {
      RunFromConcatEnd(xs, ys, env, st);
    } else {
      assert (xs + ys)[i] == xs[i];
      var (next, outcome) := Run(xs[i], env, st);
      if outcome.Pass? {
        RunFromConcat(xs, ys, i + 1, env, next);
      }
    }
  }

  /** Once the commands of xs are done, xs + ys runs as ys does. */
  lemma RunFromConcatEnd(xs: seq<Command>, ys: seq<Command>, env: Env, st: State)
    ensures RunFrom(Aggregate(xs + ys), |xs|, env, st) == Then(RunFrom(Aggregate(xs), |xs|, env, st), Aggregate(ys), env)
  {
    assert (xs + ys)[|xs|..] == ys == ys[0..];
    RunFromSame(Aggregate(xs + ys), Aggregate(ys), |xs|, 0, env, st);
  }

  /** Aggregate.execute runs its commands in the order given: the commands of
      xs + ys are those of xs, then, unless one of them raised, those of ys. */
  lemma AggregateConcat(xs: seq<Command>, ys: seq<Command>, env: Env, st: State)
    ensures Run(Aggregate(xs + ys), env, st) == Then(Run(Aggregate(xs), env, st), Aggregate(ys), env)
  {
    RunFromConcat(xs, ys, 0, env, st);
  }

  /** An aggregate of one command executes just that command. */
  lemma AggregateSingle(c: Command, env: Env, st: State)
    ensures Run(Aggregate([c]), env, st) == Run(c, env, st)
  {
    var (next, outcome) := Run(c, env, st);
    assert RunFrom(Aggregate([c]), 1, env, next) == (next, Pass);
  }

  /** Two commands run one after the other, the second only if the first
      passed. */
  lemma AggregatePair(c: Command, d: Command, env: Env, st: State)
    ensures Run(Aggregate([c, d]), env, st) == Then(Run(c, env, st), d, env)
  {
    assert [c, d] == [c] + [d];
    AggregateConcat([c], [d], env, st);
    AggregateSingle(c, env, st);
    var first := Run(c, env, st);
    if first.1.Pass? {
      AggregateSingle(d, env, first.0);
    }
  }

  /** Once a command raises, the commands after it do not run and its error
      is the aggregate's. */
  lemma AggregateStops(xs: seq<Command>, ys: seq<Command>, env: Env, st: State)
    requires Run(Aggregate(xs), env, st).1.Fail?
    ensures Run(Aggregate(xs + ys), env, st) == Run(Aggregate(xs), env, st)
  {
    AggregateConcat(xs, ys, env, st);
  }

  /** A nested aggregate runs in the flattened order of the commands it
      holds. */
  lemma AggregateFlatten(xs: seq<Command>, ys: seq<Command>, zs: seq<Command>, env: Env, st: State)
    ensures Run(Aggregate(xs + [Aggregate(ys)] + zs), env, st) == Run(Aggregate(xs + ys + zs), env, st)
  {
    AggregateConcat(xs + [Aggregate(ys)], zs, env, st);
    AggregateConcat(xs, [Aggregate(ys)], env, st);
    AggregateConcat(xs + ys, zs, env, st);
    AggregateConcat(xs, ys, env, st);
    var first := Run(Aggregate(xs), env, st);
    if first.1.Pass? {
      AggregateSingle(Aggregate(ys), env, first.0);
    }
  }

  // ----- Iterator -----

  /** Iterator.execute: the action's call for every record the generator still
      holds, in order, whether or not earlier calls raised; afterwards the
      generator is exhausted. Only an error of the generator itself escapes. */
  lemma IteratorRun(g: Generator, action: Record -> Result<Call>, env: Env, st: State)
    ensures var items := Pending(st, g);
      Run(Iterator(g, action), env, st)
      == (st.(trace := st.trace + IssuedCalls(action, items.items), pending := st.pending[g := Exhausted]),
          Propagate(items.fault))
  {
    IssueIgnoring(st.(pending := st.pending[g := Exhausted]), env.sdk, action, Pending(st, g));
  }

  /** The generator is not recreated: a second execute yields nothing and
      changes nothing. */
  lemma IteratorOneShot(g: Generator, action: Record -> Result<Call>, env: Env, st: State)
    ensures var first := Run(Iterator(g, action), env, st);
      Run(Iterator(g, action), env, first.0) == (first.0, Pass)
  {
    IteratorRun(g, action, env, st);
    var first := Run(Iterator(g, action), env, st);
    IteratorRun(g, action, env, first.0);
    assert first.0.pending[g := Exhausted] == first.0.pending;
    assert first.0.trace + [] == first.0.trace;
  }

  /** DeleteObjects.execute over objects that all carry number, x and z: one
      aw_object_delete by (number, x, z) per object, in query order. */
  lemma DeleteObjectsRun(g: Generator, env: Env, st: State)
    requires forall r :: r in Pending(st, g).items ==> "number" in r && "x" in r && "z" in r
    ensures var items := Pending(st, g).items;
      var out := Run(Iterator(g, ObjectDeleteAction), env, st);
      && |out.0.trace| == |st.trace| + |items|
      && out.0.trace[..|st.trace|] == st.trace
      && forall i :: 0 <= i < |items| ==>
           out.0.trace[|st.trace| + i] == ObjectDelete(items[i]["number"], items[i]["x"], items[i]["z"])
  {
    IteratorRun(g, ObjectDeleteAction, env, st);
    IssuedCallsAll(ObjectDeleteAction, Pending(st, g).items);
  }

  /** An object lacking number, x or z raises inside the action, which the
      iterator swallows: the run is the run without that object. */
  lemma DeleteObjectsSkips(g: Generator, env: Env, st: State, xs: seq<Record>, r: Record, ys: seq<Record>)
    requires Pending(st, g).items == xs + [r] + ys
    requires !("number" in r && "x" in r && "z" in r)
    ensures var out := Run(Iterator(g, ObjectDeleteAction), env, st);
      out.0.trace == st.trace + IssuedCalls(ObjectDeleteAction, xs + ys) && out.1 == Propagate(Pending(st, g).fault)
  {
    IteratorRun(g, ObjectDeleteAction, env, st);
    IssuedCallsSkip(ObjectDeleteAction, xs, r, ys);
  }

  /** A record whose action fails contributes no call. */
  lemma IssuedCallsSkip(action: Record -> Result<Call>, xs: seq<Record>, r: Record, ys: seq<Record>)
    requires action(r).Err?
    ensures IssuedCalls(action, xs + [r] + ys) == IssuedCalls(action, xs + ys)
  {
    IssuedCallsAppend(action, xs + [r], ys);
    IssuedCallsAppend(action, xs, [r]);
    IssuedCallsAppend(action, xs, ys);
    assert [r][..0] == [];
    assert IssuedCalls(action, [r]) == [];
  }
}
