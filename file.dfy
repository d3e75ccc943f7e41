/** The line-file store of src/common/file.py.

    The file system is a class holding, for every existing path, the bytes of
    that file. `append_to` appends in place; `load` reads a file line by line
    and parses each line as one JSON record. */
module Store {
  import opened Wrappers
  import opened Codec

  /** What append_to is given: a str or a bytes object. Its type, not a flag,
      decides between the file modes "a+" and "ab+". */
  datatype Data = Text(s: string) | Bytes(b: seq<byte>)

  /** The bytes of `data` itself, as the file ends up holding them. */
  function Payload(locale: TextCodec, data: Data): seq<byte>
  {
    match data
    case Text(s) => locale.encode(s)
    case Bytes(b) => b
  }

  /** The bytes one append_to writes: the data, then a newline of the same type
      ("\n" through the text encoding, or b"\n"). */
  function Written(locale: TextCodec, data: Data): seq<byte>
  {
    match data
    case Text(s) => locale.encode(s) + locale.encode("\n")
    case Bytes(b) => b + [NL]
  }

  /** The content of a path; a missing file reads as empty once "a+" has
      created it. */
  function Content(files: map<string, seq<byte>>, file: string): seq<byte>
  {
    if file in files then files[file] else []
  }

  /** What open() makes of its path argument before it touches the disk: None
      is a TypeError and the empty path names no file. */
  function OpenPath(file: Option<string>): (r: Result<string>)
  {
    match file
    case None => Err(TypeError)
    case Some(path) => if path == "" then Err(FileNotFound(path)) else Ok(path)
  }

  /** The file system after one append_to(file, data), and how the call ends. */
  function Appended(files: map<string, seq<byte>>, locale: TextCodec, file: Option<string>, data: Data)
    : (map<string, seq<byte>>, Outcome)
  {
    match OpenPath(file)
    case Err(e) => (files, Fail(e))
    case Ok(path) => (files[path := Content(files, path) + Written(locale, data)], Pass)
  }

  /** A file whose last line is complete. */
  predicate Terminated(content: seq<byte>)
  {
    content == [] || content[|content| - 1] == NL
  }

  function IndexOfNewline(content: seq<byte>): (i: nat)
    ensures i <= |content|
    ensures i < |content| ==> content[i] == NL
    ensures forall j :: 0 <= j < i ==> content[j] != NL
  {
    if content == [] then 0
    else if content[0] == NL then 0
    else 1 + IndexOfNewline(content[1..])
  }

  /** The lines `for line in f` yields: each keeps its newline, and a last line
      without one is yielded as it is. */
  function SplitLines(content: seq<byte>): seq<seq<byte>>
    decreases |content|
  {
    if content == [] then []
    else
      var i := IndexOfNewline(content);
      if i == |content| then [content]
      else [content[..i + 1]] + SplitLines(content[i + 1..])
  }

  /** The codec `load` decodes a line with: UTF-8 in binary mode, the text
      encoding otherwise. */
  function Decoder(binaryMode: bool, locale: TextCodec, utf8: TextCodec): TextCodec
  {
    if binaryMode then utf8 else locale
  }

  /** One line as `load` parses it: decoded, then json.loads. */
  function ParseLine(line: seq<byte>, decoder: TextCodec, json: JsonCodec): Result<Record>
  {
    match decoder.decode(line)
    case Err(e) => Err(e)
    case Ok(text) => json.loads(text)
  }

  /** The records a file yields, lazily: one per line in file order, until the
      first line that does not decode or parse, which raises when reached. */
  function Parsed(lines: seq<seq<byte>>, decoder: TextCodec, json: JsonCodec): Stream<Record>
    decreases |lines|
  {
    if lines == [] then Stream([], None)
    else
      match ParseLine(lines[0], decoder, json)
      case Err(e) => Stream([], Some(e))
      case Ok(r) =>
        var rest := Parsed(lines[1..], decoder, json);
        Stream([r] + rest.items, rest.fault)
  }

  /** The stream `load(file, binary_mode)` produces over the file system
      `files`. Opening happens at the first step of the generator, so open's
      errors are raised by the stream itself. */
  function Loaded(files: map<string, seq<byte>>, file: Option<string>, binaryMode: bool,
                  locale: TextCodec, lib: Library): Stream<Record>
  {
    match OpenPath(file)
    case Err(e) => Stream([], Some(e))
    case Ok(path) =>
      if path !in files then Stream([], Some(FileNotFound(path)))
      else Parsed(SplitLines(files[path]), Decoder(binaryMode, locale, lib.utf8), lib.json)
  }

  /** Bytes the backup file holds for one serialized record: Save encodes the
      JSON text to UTF-8 in binary mode and hands the str over otherwise. */
  function LineData(binaryMode: bool, utf8: TextCodec, text: string): Data
  {
    if binaryMode then Bytes(utf8.encode(text)) else Text(text)
  }

  /** The bytes appended for the JSON texts `texts`, one append_to each. */
  function Block(locale: TextCodec, utf8: TextCodec, binaryMode: bool, texts: seq<string>): seq<byte>
    decreases |texts|
  {
    if texts == [] then []
    else
      Block(locale, utf8, binaryMode, texts[..|texts| - 1])
      + Written(locale, LineData(binaryMode, utf8, texts[|texts| - 1]))
  }

  class Disk {
    var files: map<string, seq<byte>>
    /** The encoding text-mode files are read and written with. */
    const locale: TextCodec

    constructor (files: map<string, seq<byte>>, locale: TextCodec)
      ensures this.files == files && this.locale == locale
    {
      this.files := files;
      this.locale := locale;
    }

    /** append_to(file, data): opens `file` for appending, creating it when
        absent, and writes the data followed by one newline; nothing else in the
        file system changes. A path open() refuses raises and writes nothing. */
    method AppendTo(file: Option<string>, data: Data) returns (outcome: Outcome)
      modifies this
      ensures (files, outcome) == Appended(old(files), locale, file, data)
    {
      if file.None? {
        return Fail(TypeError);
      }
      var path := file.value;
      if path == "" {
        return Fail(FileNotFound(path));
      }
      var newline := match data
        case Text(_) => locale.encode("\n")
        case Bytes(_) => [NL];
      var written := Payload(locale, data) + newline;
      assert written == Written(locale, data);
      files := files[path := Content(files, path) + written];
      outcome := Pass;
    }

    /** load(file, binary_mode): the records of the file, one per line in file
        order, parsed lazily so that the records before a malformed line are
        all yielded before it raises. */
    method Load(file: Option<string>, binaryMode: bool, lib: Library) returns (records: Stream<Record>)
      ensures records == Loaded(files, file, binaryMode, locale, lib)
    {
      if file.None? {
        return Stream([], Some(TypeError));
      }
      var path := file.value;
      if path == "" || path !in files {
        return Stream([], Some(FileNotFound(path)));
      }
      var decoder := if binaryMode then lib.utf8 else locale;
      var lines := SplitLines(files[path]);
      var items: seq<Record> := [];
      var i := 0;
      while i < |lines|
        invariant 0 <= i <= |lines|
        invariant Parsed(lines, decoder, lib.json)
          == Stream(items + Parsed(lines[i..], decoder, lib.json).items, Parsed(lines[i..], decoder, lib.json).fault)
      {
        ParsedStep(lines, i, decoder, lib.json, items);
        var text := decoder.decode(lines[i]);
        if text.Err? {
          return Stream(items, Some(text.error));
        }
        var parsed := lib.json.loads(text.value);
        if parsed.Err? {
          return Stream(items, Some(parsed.error));
        }
        items := items + [parsed.value];
        i := i + 1;
      }
      records := Stream(items, None);
    }
  }

  /** One turn of load's loop: the line at i either raises, ending the stream
      after the records before it, or adds its record to them. */
  lemma ParsedStep(lines: seq<seq<byte>>, i: nat, decoder: TextCodec, json: JsonCodec, items: seq<Record>)
    requires i < |lines|
    requires Parsed(lines, decoder, json)
          == Stream(items + Parsed(lines[i..], decoder, json).items, Parsed(lines[i..], decoder, json).fault)
    ensures ParseLine(lines[i], decoder, json).Err? ==>
              Parsed(lines, decoder, json) == Stream(items, Some(ParseLine(lines[i], decoder, json).error))
    ensures ParseLine(lines[i], decoder, json).Ok? ==>
              Parsed(lines, decoder, json)
              == Stream((items + [ParseLine(lines[i], decoder, json).value]) + Parsed(lines[i + 1..], decoder, json).items,
                        Parsed(lines[i + 1..], decoder, json).fault)
  {
    assert lines[i..][1..] == lines[i + 1..];
    assert lines[i..][0] == lines[i];
    if ParseLine(lines[i], decoder, json).Err? {
      assert items + [] == items;
    } else {
      var r := ParseLine(lines[i], decoder, json).value;
      var rest := Parsed(lines[i + 1..], decoder, json);
      assert items + ([r] + rest.items) == (items + [r]) + rest.items;
    }
  }

  /** With a lawful encoding, append_to writes the payload and one newline byte. */
  lemma WrittenIsOneLine(locale: TextCodec, data: Data)
    requires LawfulText(locale)
    ensures Written(locale, data) == Payload(locale, data) + [NL]
  {
  }

  /** The first newline of a + b is the first newline of a, when a has one. */
  lemma {:induction false} NewlineInPrefix(a: seq<byte>, b: seq<byte>)
    requires IndexOfNewline(a) < |a|
    ensures IndexOfNewline(a + b) == IndexOfNewline(a)
    decreases |a|
  {
    if a[0] != NL {
      assert (a + b)[1..] == a[1..] + b;
      NewlineInPrefix(a[1..], b);
    }
  }

  /** A newline-free prefix shifts the first newline by its length. */
  lemma {:induction false} NewlineAfterPrefix(a: seq<byte>, b: seq<byte>)
    requires NL !in a
    ensures IndexOfNewline(a + b) == |a| + IndexOfNewline(b)
    decreases |a|
  {
    if a == [] {
      assert a + b == b;
    } else {
      assert a[0] != NL;
      assert (a + b)[1..] == a[1..] + b;
      NewlineAfterPrefix(a[1..], b);
    }
  }

  /** A content with a newline splits into its first line and the rest. */
  lemma {:induction false} SplitAtNewline(content: seq<byte>)
    requires IndexOfNewline(content) < |content|
    ensures SplitLines(content)
         == [content[..IndexOfNewline(content) + 1]] + SplitLines(content[IndexOfNewline(content) + 1..])
  {
  }

  /** Appending a newline-free line to a file whose last line is complete adds
      exactly one line, and leaves the earlier lines as they were. */
  lemma SplitAppend(content: seq<byte>, line: seq<byte>)
    requires Terminated(content) && NL !in line
    ensures SplitLines(content + line + [NL]) == SplitLines(content) + [line + [NL]]
  {
    NewlineAfterPrefix(line, [NL]);
    assert content + line + [NL] == content + (line + [NL]);
    SplitAppendLine(content, line + [NL]);
  }

  /** The same for any one complete line. */
  lemma {:induction false} SplitAppendLine(content: seq<byte>, last: seq<byte>)
    requires Terminated(content)
    requires last != [] && IndexOfNewline(last) == |last| - 1
    ensures SplitLines(content + last) == SplitLines(content) + [last]
    decreases |content|
  {
    if content == [] {
      assert content + last == last + [];
      SplitPrefixLine(last, []);
    } else {
      var i := IndexOfNewline(content);
      FirstLine(content);
      var first, rest := content[..i + 1], content[i + 1..];
      assert content == first + rest;
      assert Terminated(rest);
      SplitAppendLine(rest, last);
      SplitAppendStep(first, rest, last);
    }
  }

  /** The first line of a content with a newline ends at that newline. */
  lemma FirstLine(content: seq<byte>)
    requires IndexOfNewline(content) < |content|
    ensures var i := IndexOfNewline(content); IndexOfNewline(content[..i + 1]) == i
  {
    var i := IndexOfNewline(content);
    assert content == content[..i + 1] + content[i + 1..];
    NewlineInPrefix(content[..i + 1], content[i + 1..]);
  }

  /** A line the content starts with stays in front when a line is appended. */
  lemma SplitAppendStep(first: seq<byte>, rest: seq<byte>, last: seq<byte>)
    requires first != [] && IndexOfNewline(first) == |first| - 1
    requires SplitLines(rest + last) == SplitLines(rest) + [last]
    ensures SplitLines(first + rest + last) == SplitLines(first + rest) + [last]
  {
    SplitPrefixLine(first, rest);
    SplitPrefixLines(first, rest, last);
    ConsSnoc(first, SplitLines(rest), last);
  }

  lemma ConsSnoc<T>(x: T, xs: seq<T>, y: T)
    ensures [x] + (xs + [y]) == ([x] + xs) + [y]
  {
  }

  lemma SplitPrefixLines(first: seq<byte>, rest: seq<byte>, last: seq<byte>)
    requires first != [] && IndexOfNewline(first) == |first| - 1
    ensures SplitLines(first + rest + last) == [first] + SplitLines(rest + last)
  {
    assert first + rest + last == first + (rest + last);
    SplitPrefixLine(first, rest + last);
  }

  /** A first line that ends at its only newline splits off whatever follows. */
  lemma SplitPrefixLine(first: seq<byte>, tail: seq<byte>)
    requires first != [] && IndexOfNewline(first) == |first| - 1
    ensures SplitLines(first + tail) == [first] + SplitLines(tail)
  {
    var all := first + tail;
    NewlineInPrefix(first, tail);
    assert all[..|first|] == first;
    assert all[|first|..] == tail;
    SplitAtNewline(all);
  }

  /** Parsing one more well-formed line after lines that all parse yields one
      more record and still no error. */
  lemma {:induction false} ParsedAppend(lines: seq<seq<byte>>, line: seq<byte>, decoder: TextCodec, json: JsonCodec, r: Record)
    requires Parsed(lines, decoder, json).fault == None
    requires ParseLine(line, decoder, json) == Ok(r)
    ensures Parsed(lines + [line], decoder, json) == Stream(Parsed(lines, decoder, json).items + [r], None)
    decreases |lines|
  {
    if lines == [] {
      assert [] + [line] == [line];
      assert [line][1..] == [];
    } else {
      assert (lines + [line])[1..] == lines[1..] + [line];
      ParsedAppend(lines[1..], line, decoder, json, r);
    }
  }

  /** Appending the line of one serialized record to a file all of whose lines
      parse yields one more record when loaded in the same mode. */
  lemma {:induction false} AppendOneRecord(locale: TextCodec, lib: Library, binaryMode: bool,
                        content: seq<byte>, text: string, r: Record)
    requires LawfulText(locale) && LawfulText(lib.utf8)
    requires '\n' !in text && lib.json.loads(text + "\n") == Ok(r)
    requires Terminated(content)
    requires Parsed(SplitLines(content), Decoder(binaryMode, locale, lib.utf8), lib.json).fault == None
    ensures Terminated(content + Written(locale, LineData(binaryMode, lib.utf8, text)))
    ensures Parsed(SplitLines(content + Written(locale, LineData(binaryMode, lib.utf8, text))),
                   Decoder(binaryMode, locale, lib.utf8), lib.json)
         == Stream(Parsed(SplitLines(content), Decoder(binaryMode, locale, lib.utf8), lib.json).items + [r], None)
  {
    var decoder := Decoder(binaryMode, locale, lib.utf8);
    var data := LineData(binaryMode, lib.utf8, text);
    var payload := Payload(locale, data);
    assert payload == decoder.encode(text);
    EncodeNoNewline(decoder, text);
    WrittenIsOneLine(locale, data);
    assert content + Written(locale, data) == content + payload + [NL];
    SplitAppend(content, payload);
    DecodeLine(decoder, text);
    ParsedAppend(SplitLines(content), payload + [NL], decoder, lib.json, r);
  }

  /** The block of n texts is the block of the first n - 1 and the last line. */
  lemma {:induction false} BlockLast(locale: TextCodec, utf8: TextCodec, binaryMode: bool, content: seq<byte>, texts: seq<string>)
    requires texts != []
    ensures content + Block(locale, utf8, binaryMode, texts)
         == content + Block(locale, utf8, binaryMode, texts[..|texts| - 1])
            + Written(locale, LineData(binaryMode, utf8, texts[|texts| - 1]))
  {
    var last := Written(locale, LineData(binaryMode, utf8, texts[|texts| - 1]));
    assert Block(locale, utf8, binaryMode, texts) == Block(locale, utf8, binaryMode, texts[..|texts| - 1]) + last;
  }

  lemma {:induction false} SnocAppend<T>(front: seq<T>, s: seq<T>)
    requires s != []
    ensures front + s == (front + s[..|s| - 1]) + [s[|s| - 1]]
  {
    assert s == s[..|s| - 1] + [s[|s| - 1]];
  }

  /** The record codecs round-trip through the file: appending the lines of
      records r1..rn to a file all of whose lines parse, and loading it in the
      same mode, yields the file's earlier records followed by r1..rn. */
  lemma {:induction false} ReadBack(locale: TextCodec, lib: Library, binaryMode: bool,
                                    content: seq<byte>, texts: seq<string>, rs: seq<Record>)
    requires LawfulText(locale) && LawfulText(lib.utf8)
    requires |texts| == |rs|
    requires forall i :: 0 <= i < |texts| ==> '\n' !in texts[i] && lib.json.loads(texts[i] + "\n") == Ok(rs[i])
    requires Terminated(content)
    requires Parsed(SplitLines(content), Decoder(binaryMode, locale, lib.utf8), lib.json).fault == None
    ensures Terminated(content + Block(locale, lib.utf8, binaryMode, texts))
    ensures Parsed(SplitLines(content + Block(locale, lib.utf8, binaryMode, texts)),
                   Decoder(binaryMode, locale, lib.utf8), lib.json)
         == Stream(Parsed(SplitLines(content), Decoder(binaryMode, locale, lib.utf8), lib.json).items + rs, None)
    decreases |texts|
  {
    var decoder := Decoder(binaryMode, locale, lib.utf8);
    var initial := Parsed(SplitLines(content), decoder, lib.json).items;
    if texts == [] {
      assert content + [] == content;
      assert initial + [] == initial;
    } else {
      var n := |texts| - 1;
      ReadBack(locale, lib, binaryMode, content, texts[..n], rs[..n]);
      BlockLast(locale, lib.utf8, binaryMode, content, texts);
      AppendOneRecord(locale, lib, binaryMode, content + Block(locale, lib.utf8, binaryMode, texts[..n]), texts[n], rs[n]);
      SnocAppend(initial, rs);
    }
  }
}
