/** What executing a command does, as a function of the state before it.

    The state is everything a command can change: the trace of SDK calls the
    world has received, the files, and what each generator has still to yield.
    Each execute is an on_each over a record stream whose per-record callback
    performs at most one effect (one append_to, or one SDK call); `Run` gives
    the new state and the outcome through the closed form of on_each. */
module Semantics {
  import opened Wrappers
  import opened Codec
  import opened Query
  import opened World
  import opened Store
  import opened Func
  import opened Commands

  /** One change to the outside world: bytes appended to a file, or an SDK
      call issued. */
  datatype Effect = Write(path: string, bytes: seq<byte>) | Issued(call: Call)

  datatype State = State(trace: seq<Call>, files: map<string, seq<byte>>, pending: map<Generator, Stream<Record>>)

  /** What stays fixed while commands run: the SDK, the text encoding of the
      file system and the library codecs. */
  datatype Env = Env(sdk: Sdk, locale: TextCodec, lib: Library)

  function Step(st: State, e: Effect): State
  {
    match e
    case Write(path, bytes) => st.(files := st.files[path := Content(st.files, path) + bytes])
    case Issued(call) => st.(trace := st.trace + [call])
  }

  /** The state after the effects, in order. */
  function Apply(st: State, effects: seq<Effect>): State
    decreases |effects|
  {
    if effects == [] then st else Step(Apply(st, effects[..|effects| - 1]), effects[|effects| - 1])
  }

  /** Save's callback: serialize the record, then append_to(file, line). */
  function SaveAttempt(locale: TextCodec, file: Option<string>, line: Record -> Result<Data>): Record -> Attempt<Effect>
  {
    r => match line(r)
      case Err(e) => Attempt([], Fail(e))
      case Ok(data) =>
        match OpenPath(file)
        case Err(e) => Attempt([], Fail(e))
        case Ok(path) => Attempt([Write(path, Written(locale, data))], Pass)
  }

  /** A callback that computes one SDK call from the record and issues it. */
  function IssueAttempt(sdk: Sdk, action: Record -> Result<Call>): Record -> Attempt<Effect>
  {
    r => match action(r)
      case Err(e) => Attempt([], Fail(e))
      case Ok(call) => Attempt([Issued(call)], CallOutcome(sdk, call))
  }

  /** on_each(items, callback, ignore) started in state st. */
  function Drain(st: State, items: Stream<Record>, callback: Record -> Attempt<Effect>, ignore: bool): (State, Outcome)
  {
    (Apply(st, OnEachEffects(items, callback, ignore)), Propagate(OnEachRaised(items, callback, ignore)))
  }

  /** The records a generator yields from state st on. */
  function Pending(st: State, g: Generator): Stream<Record>
  {
    if g in st.pending then st.pending[g] else Stream([], None)
  }

  /** An exhausted generator. */
  const Exhausted: Stream<Record> := Stream([], None)

  /** command.execute() in state st. */
  function Run(c: Command, env: Env, st: State): (State, Outcome)
    decreases c, 1
  {
    match c
    case Save(f) =>
      Drain(st, env.sdk.query(f.query), SaveAttempt(env.locale, f.fileName, SaveLine(env.lib, f.binaryMode)), true)
    case SaveQuery(q, file, binaryMode) =>
      Drain(st, env.sdk.query(q), SaveAttempt(env.locale, file, SaveQueryLine(env.lib, binaryMode)), true)
    case Load(f) =>
      Drain(st, Loaded(st.files, f.fileName, f.binaryMode, env.locale, env.lib),
            IssueAttempt(env.sdk, LoadReceive(f.query, env.sdk.attribute)), false)
    case LoadQuery(_, loadFunction, file, binaryMode) =>
      Drain(st, Loaded(st.files, file, binaryMode, env.locale, env.lib), IssueAttempt(env.sdk, loadFunction), false)
    case Delete(_, target) =>
      (Step(st, Issued(BulkDelete(target))), CallOutcome(env.sdk, BulkDelete(target)))
    case Iterator(g, action) =>
      Drain(st.(pending := st.pending[g := Exhausted]), Pending(st, g), IssueAttempt(env.sdk, action), true)
    case Aggregate(_) =>
      RunFrom(c, 0, env, st)
  }

  /** An aggregate's commands from index i on, in order, stopping at the first
      that raises. */
  function RunFrom(c: Command, i: nat, env: Env, st: State): (State, Outcome)
    requires c.Aggregate? && i <= |c.commands|
    decreases c, 0, |c.commands| - i
  {
    if i == |c.commands| then (st, Pass)
    else
      var (next, outcome) := Run(c.commands[i], env, st);
      if outcome.Fail? then (next, outcome) else RunFrom(c, i + 1, env, next)
  }

  /** Running one result after another: the second only when the first passed. */
  function Then(first: (State, Outcome), c: Command, env: Env): (State, Outcome)
  {
    if first.1.Fail? then first else Run(c, env, first.0)
  }

  // ----- effects -----

  lemma {:induction false} ApplyAppend(st: State, a: seq<Effect>, b: seq<Effect>)
    ensures Apply(st, a + b) == Apply(Apply(st, a), b)
    decreases |b|
  {
    if b == [] {
      assert a + b == a;
    } else {
      assert (a + b)[..|a + b| - 1] == a + b[..|b| - 1];
      ApplyAppend(st, a, b[..|b| - 1]);
    }
  }

  lemma ApplyOne(st: State, a: seq<Effect>, e: Effect)
    ensures Apply(st, a + [e]) == Step(Apply(st, a), e)
  {
    assert (a + [e])[..|a|] == a;
  }

  /** The texts Save writes for `records`: the serialization of each record
      json.dumps accepts, in order; the others are skipped. */
  function SavedTexts(dumps: Record -> Result<string>, records: seq<Record>): seq<string>
    decreases |records|
  {
    if records == [] then []
    else
      var last := dumps(records[|records| - 1]);
      SavedTexts(dumps, records[..|records| - 1]) + (if last.Ok? then [last.value] else [])
  }

  /** Without faults, the records SavedTexts keeps, in order. */
  function SavedRecords(dumps: Record -> Result<string>, records: seq<Record>): seq<Record>
    decreases |records|
  {
    if records == [] then []
    else
      var last := records[|records| - 1];
      SavedRecords(dumps, records[..|records| - 1]) + (if dumps(last).Ok? then [last] else [])
  }

  /** The SDK calls a callback issues for `records`: one per record whose call
      could be computed, whether or not the call then raised. */
  function IssuedCalls(action: Record -> Result<Call>, records: seq<Record>): (calls: seq<Call>)
    ensures |calls| <= |records|
    decreases |records|
  {
    if records == [] then []
    else
      var last := action(records[|records| - 1]);
      IssuedCalls(action, records[..|records| - 1]) + (if last.Ok? then [last.value] else [])
  }

  /** With a lawful encoding every line append_to writes ends in a newline. */
  lemma {:induction false} BlockEmpty(locale: TextCodec, utf8: TextCodec, binaryMode: bool, texts: seq<string>)
    requires LawfulText(locale)
    ensures Block(locale, utf8, binaryMode, texts) == [] <==> texts == []
  {
    if texts != [] {
      WrittenIsOneLine(locale, LineData(binaryMode, utf8, texts[|texts| - 1]));
    }
  }

  /** The files after appending `bytes` to `path` once per line: unchanged when
      nothing was written, otherwise the file (created if need be) extended. */
  function Extended(files: map<string, seq<byte>>, path: string, bytes: seq<byte>): map<string, seq<byte>>
  {
    if bytes == [] then files else files[path := Content(files, path) + bytes]
  }

  /** Appending more bytes extends the same file further. */
  lemma ExtendedStep(files: map<string, seq<byte>>, path: string, prior: seq<byte>, line: seq<byte>)
    requires line != []
    ensures Extended(files, path, prior)[path := Content(Extended(files, path, prior), path) + line]
         == Extended(files, path, prior + line)
  {
    var existing := Content(files, path);
    if prior == [] {
      assert prior + line == line;
    } else {
      assert Content(Extended(files, path, prior), path) == existing + prior;
      assert existing + prior + line == existing + (prior + line);
    }
  }

  /** What Save's callback does with one record. */
  lemma SaveAttemptOne(locale: TextCodec, dumps: Record -> Result<string>, lib: Library, binaryMode: bool, path: string, r: Record)
    requires path != ""
    ensures SaveAttempt(locale, Some(path), LineOf(dumps, lib.utf8, binaryMode))(r).effects
         == if dumps(r).Ok? then [Write(path, Written(locale, LineData(binaryMode, lib.utf8, dumps(r).value)))]
            else []
  {
    assert OpenPath(Some(path)) == Ok(path);
    var dumped := dumps(r);
    if dumped.Ok? {
      assert LineOf(dumps, lib.utf8, binaryMode)(r) == Ok(LineData(binaryMode, lib.utf8, dumped.value));
    } else {
      assert LineOf(dumps, lib.utf8, binaryMode)(r) == Err(dumped.error);
    }
  }

  /** One step of SavedTexts and Block. */
  lemma SavedBlockStep(locale: TextCodec, dumps: Record -> Result<string>, lib: Library, binaryMode: bool, records: seq<Record>)
    requires records != []
    ensures var n := |records| - 1;
      var dumped := dumps(records[n]);
      Block(locale, lib.utf8, binaryMode, SavedTexts(dumps, records))
      == Block(locale, lib.utf8, binaryMode, SavedTexts(dumps, records[..n]))
         + (if dumped.Ok? then Written(locale, LineData(binaryMode, lib.utf8, dumped.value)) else [])
  {
    var n := |records| - 1;
    var before := SavedTexts(dumps, records[..n]);
    var texts := SavedTexts(dumps, records);
    var dumped := dumps(records[n]);
    if dumped.Ok? {
      assert texts == before + [dumped.value];
      assert texts[..|texts| - 1] == before;
    } else {
      assert texts == before;
      assert Block(locale, lib.utf8, binaryMode, before) + [] == Block(locale, lib.utf8, binaryMode, before);
    }
  }

  /** The effects of Save's callback over records: all lines go to one file, at
      its end, in record order; records that do not serialize leave no line. */
  lemma {:induction false} SaveEffects(st: State, locale: TextCodec, dumps: Record -> Result<string>, lib: Library, binaryMode: bool,
                                       path: string, records: seq<Record>)
    requires LawfulText(locale)
    requires path != ""
    ensures Apply(st, FlatMap(SaveAttempt(locale, Some(path), LineOf(dumps, lib.utf8, binaryMode)), records))
         == st.(files := Extended(st.files, path, Block(locale, lib.utf8, binaryMode, SavedTexts(dumps, records))))
    decreases |records|
  {
    var cb := SaveAttempt(locale, Some(path), LineOf(dumps, lib.utf8, binaryMode));
    if records != [] {
      var n := |records| - 1;
      var before := records[..n];
      SaveEffects(st, locale, dumps, lib, binaryMode, path, before);
      var prior := Block(locale, lib.utf8, binaryMode, SavedTexts(dumps, before));
      SaveAttemptOne(locale, dumps, lib, binaryMode, path, records[n]);
      SavedBlockStep(locale, dumps, lib, binaryMode, records);
      assert FlatMap(cb, records) == FlatMap(cb, before) + cb(records[n]).effects;
      var dumped := dumps(records[n]);
      if dumped.Ok? {
        var line := Written(locale, LineData(binaryMode, lib.utf8, dumped.value));
        ApplyOne(st, FlatMap(cb, before), Write(path, line));
        WrittenIsOneLine(locale, LineData(binaryMode, lib.utf8, dumped.value));
        ExtendedStep(st.files, path, prior, line);
      } else {
        assert FlatMap(cb, records) == FlatMap(cb, before);
        assert prior + [] == prior;
      }
    }
  }

  /** Load.execute's _receive as written: strip, then the as-written dispatch. */
  function LoadReceiveAsWritten(query: Category, attribute: string -> Option<int>): Record -> Result<Call>
  {
    data => LoadDispatchAsWritten(query, attribute, Strip(data))
  }

  /** Load.execute as written. */
  function RunLoadAsWritten(f: FileFields, env: Env, st: State): (State, Outcome)
  {
    Drain(st, Loaded(st.files, f.fileName, f.binaryMode, env.locale, env.lib),
          IssueAttempt(env.sdk, LoadReceiveAsWritten(f.query, env.sdk.attribute)), false)
  }
}
