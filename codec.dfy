/** The record codecs the program borrows from Python's standard library.

    `json.dumps`, `json.loads`, `str.encode` and `bytes.decode` are not part of
    the modelled code. The model takes each as a parameter and states what the
    round-trip properties rely on as `Lawful...` predicates, which the lemmas
    that need them take as preconditions. */
module Codec {
  import opened Wrappers

  newtype byte = b: int | 0 <= b < 256

  /** The byte b"\n". */
  const NL: byte := 10

  /** A JSON scalar as a field value of an entity record. */
  datatype Value = VNull | VBool(b: bool) | VInt(i: int) | VStr(s: string)

  /** The decimal digits of n. */
  function Digits(n: nat): string
    decreases n
  {
    if n < 10 then [('0' as int + n) as char] else Digits(n / 10) + [('0' as int + n % 10) as char]
  }

  /** How a value prints as a Python object (the key a KeyError reports). */
  function Repr(v: Value): string
  {
    match v
    case VNull => "None"
    case VBool(b) => if b then "True" else "False"
    case VInt(i) => if i < 0 then "-" + Digits(-i) else Digits(i)
    case VStr(s) => s
  }

  /** An entity record: the dict of a parsed JSON line, or the fields of a
      queried entity (dataclasses.asdict / __dict__). */
  type Record = map<string, Value>

  /** A character encoding: `encode` is str.encode, `decode` is bytes.decode. */
  datatype TextCodec = TextCodec(encode: string -> seq<byte>, decode: seq<byte> -> Result<string>)

  /** What UTF-8 (and any ASCII-compatible encoding) guarantees: decoding undoes
      encoding, encoding works character by character, the newline is the
      single byte 10, and no other character's encoding contains that byte. */
  ghost predicate LawfulText(c: TextCodec)
  {
    && (forall s :: c.decode(c.encode(s)) == Ok(s))
    && (forall a: string, b: string :: c.encode(a + b) == c.encode(a) + c.encode(b))
    && c.encode("\n") == [NL]
    && (forall ch: char :: ch != '\n' ==> NL !in c.encode([ch]))
  }

  /** `dumps` is json.dumps(..., skipkeys=True, default=str) as Save calls it;
      `dumpsPlain` is json.dumps(...) as SaveQuery calls it; `loads` is json.loads. */
  datatype JsonCodec = JsonCodec(
    dumps: Record -> Result<string>,
    dumpsPlain: Record -> Result<string>,
    loads: string -> Result<Record>)

  /** What json guarantees for the records a serializer accepts: a serialized
      record is one line (json.dumps without indent escapes every newline), and
      json.loads of that line, trailing newline included, gives the record back. */
  ghost predicate Inverts(loads: string -> Result<Record>, dumps: Record -> Result<string>)
  {
    forall r :: dumps(r).Ok? ==> '\n' !in dumps(r).value && loads(dumps(r).value + "\n") == Ok(r)
  }

  ghost predicate LawfulJson(j: JsonCodec)
  {
    Inverts(j.loads, j.dumps) && Inverts(j.loads, j.dumpsPlain)
  }

  /** The library codecs the commands use: json, and the UTF-8 codec of
      str.encode('utf-8') and bytes.decode('utf-8'). */
  datatype Library = Library(json: JsonCodec, utf8: TextCodec)

  ghost predicate Lawful(lib: Library)
  {
    LawfulJson(lib.json) && LawfulText(lib.utf8)
  }

  /** A string without a newline encodes to bytes without the newline byte. */
  lemma {:induction false} EncodeNoNewline(c: TextCodec, s: string)
    requires LawfulText(c)
    requires '\n' !in s
    ensures NL !in c.encode(s)
    decreases |s|
  {
    if s == [] {
      var empty: string := [];
      assert empty + empty == empty;
      assert c.encode(empty + empty) == c.encode(empty) + c.encode(empty);
      assert |c.encode(empty)| == 0;
    } else {
      assert s == [s[0]] + s[1..];
      assert c.encode(s) == c.encode([s[0]]) + c.encode(s[1..]);
      EncodeNoNewline(c, s[1..]);
    }
  }

  /** A line written as encode(s) followed by the newline decodes to s + "\n". */
  lemma {:induction false} DecodeLine(c: TextCodec, s: string)
    requires LawfulText(c)
    ensures c.decode(c.encode(s) + [NL]) == Ok(s + "\n")
  {
    assert c.encode(s + "\n") == c.encode(s) + c.encode("\n");
  }
}
