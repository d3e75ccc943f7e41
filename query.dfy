/** The world data categories and how a command's query-type argument picks one
    (src/management/commands/file_abc.py and src/management/commands/delete.py:
    upper-case, drop one trailing 'S', rename ATTRIBUTE to WORLD, then look the
    name up in the SDK's QueryEnum). */
module Query {
  import opened Wrappers

  /** The members of the SDK's QueryEnum that the commands dispatch on. */
  datatype Category = OBJECT | TERRAIN | WORLD

  /** A member's name, the key QueryEnum[...] looks it up by. */
  function Name(c: Category): string
  {
    match c
    case OBJECT => "OBJECT"
    case TERRAIN => "TERRAIN"
    case WORLD => "WORLD"
  }

  /** QueryEnum[name]: the member with that name, or a KeyError. */
  function FromName(name: string): (r: Result<Category>)
    ensures r.Ok? ==> Name(r.value) == name
    ensures r.Err? ==> r.error == KeyError(name) && forall c: Category :: Name(c) != name
  {
    if name == "OBJECT" then Ok(OBJECT)
    else if name == "TERRAIN" then Ok(TERRAIN)
    else if name == "WORLD" then Ok(WORLD)
    else Err(KeyError(name))
  }

  /** str.upper on one character: ASCII letters, and the characters whose
      upper-case form is plain ASCII (sharp s, dotless i, long s and the Latin
      ligatures); every other character is kept. */
  function UpperChar(ch: char): string
  {
    if 'a' <= ch <= 'z' then [(ch as int - 32) as char]
    else if ch == 'ß' then "SS"
    else if ch == 'ı' then "I"
    else if ch == 'ſ' then "S"
    else if ch == 'ﬀ' then "FF"
    else if ch == 'ﬁ' then "FI"
    else if ch == 'ﬂ' then "FL"
    else if ch == 'ﬃ' then "FFI"
    else if ch == 'ﬄ' then "FFL"
    else if ch == 'ﬅ' || ch == 'ﬆ' then "ST"
    else [ch]
  }

  /** str.upper: each character upper-cased in place; one character can become
      several. */
  function Upper(s: string): string
    decreases |s|
  {
    if s == [] then [] else UpperChar(s[0]) + Upper(s[1..])
  }

  /** str.removesuffix: drops `suffix` once when the string ends with it. */
  function RemoveSuffix(s: string, suffix: string): (r: string)
    ensures r == s || (s == r + suffix)
    ensures |suffix| <= |s| && s[|s| - |suffix|..] == suffix ==> s == r + suffix
  {
    if |suffix| <= |s| && s[|s| - |suffix|..] == suffix then s[..|s| - |suffix|] else s
  }

  /** str.replace(pat, rep): every occurrence of `pat`, found left to right
      without overlap, replaced by `rep`. */
  function Replace(s: string, pat: string, rep: string): string
    requires pat != []
    decreases |s|
  {
    if |pat| <= |s| && s[..|pat|] == pat then rep + Replace(s[|pat|..], pat, rep)
    else if s == [] then []
    else [s[0]] + Replace(s[1..], pat, rep)
  }

  /** The enum name the constructors compute from a query-type argument. */
  function Normalised(queryType: string): string
  {
    Replace(RemoveSuffix(Upper(queryType), "S"), "ATTRIBUTE", "WORLD")
  }

  /** QueryEnum[normalised query type], as FileABC and Delete evaluate it when
      constructed. */
  function Resolve(queryType: string): Result<Category>
  {
    FromName(Normalised(queryType))
  }

  /** The upper-cased arguments that select each category. */
  function Spellings(c: Category): set<string>
  {
    match c
    case OBJECT => {"OBJECT", "OBJECTS"}
    case TERRAIN => {"TERRAIN", "TERRAINS"}
    case WORLD => {"WORLD", "WORLDS", "ATTRIBUTE", "ATTRIBUTES"}
  }

  /** A character str.upper keeps. */
  predicate Fixed(ch: char)
  {
    UpperChar(ch) == [ch]
  }

  /** Every character of an upper-cased character is kept by str.upper. */
  lemma {:induction false} UpperCharFixed(ch: char)
    ensures forall i :: 0 <= i < |UpperChar(ch)| ==> Fixed(UpperChar(ch)[i])
  {
  }

  /** A string of kept characters is its own upper case. */
  lemma {:induction false} UpperOfFixed(s: string)
    requires forall i :: 0 <= i < |s| ==> Fixed(s[i])
    ensures Upper(s) == s
    decreases |s|
  {
    if s != [] {
      assert Fixed(s[0]);
      UpperOfFixed(s[1..]);
    }
  }

  /** Upper-casing twice is upper-casing once. */
  lemma {:induction false} UpperIdempotent(s: string)
    ensures Upper(Upper(s)) == Upper(s)
    decreases |s|
  {
    if s != [] {
      var head := UpperChar(s[0]);
      UpperAppend(head, Upper(s[1..]));
      UpperIdempotent(s[1..]);
      UpperCharFixed(s[0]);
      UpperOfFixed(head);
    }
  }

  /** Upper-casing works piece by piece. */
  lemma {:induction false} UpperAppend(a: string, b: string)
    ensures Upper(a + b) == Upper(a) + Upper(b)
    decreases |a|
  {
    if a == [] {
      assert a + b == b;
    } else {
      assert (a + b)[1..] == a[1..] + b;
      UpperAppend(a[1..], b);
    }
  }

  /** str.upper of lower-case ASCII letters shifts each one to upper case. */
  lemma {:induction false} UpperLowerAscii(s: string)
    requires forall i :: 0 <= i < |s| ==> 'a' <= s[i] <= 'z'
    ensures |Upper(s)| == |s|
    ensures forall i :: 0 <= i < |s| ==> Upper(s)[i] == (s[i] as int - 32) as char
    decreases |s|
  {
    if s != [] {
      UpperLowerAscii(s[1..]);
    }
  }

  /** Removing a suffix that was appended gives the string back. */
  lemma {:induction false} RemoveAppendedSuffix(t: string, suffix: string)
    ensures RemoveSuffix(t + suffix, suffix) == t
  {
    assert (t + suffix)[|t|..] == suffix;
    assert (t + suffix)[..|t|] == t;
  }

  /** `pat` starts at position i of s. */
  predicate OccursAt(s: string, pat: string, i: int)
  {
    0 <= i && i + |pat| <= |s| && s[i..i + |pat|] == pat
  }

  /** A string in which `pat` never occurs is left as it is. */
  lemma {:induction false} ReplaceAbsent(s: string, pat: string, rep: string)
    requires pat != []
    requires forall i :: !OccursAt(s, pat, i)
    ensures Replace(s, pat, rep) == s
    decreases |s|
  {
    if s != [] {
      assert !OccursAt(s, pat, 0);
      assert |pat| <= |s| ==> s[0..|pat|] == s[..|pat|];
      AbsentInTail(s, pat);
      ReplaceAbsent(s[1..], pat, rep);
      assert s == [s[0]] + s[1..];
    }
  }

  /** A pattern absent from a string is absent from its tail. */
  lemma AbsentInTail(s: string, pat: string)
    requires s != []
    requires forall i :: !OccursAt(s, pat, i)
    ensures forall i :: !OccursAt(s[1..], pat, i)
  {
    forall i
      ensures !OccursAt(s[1..], pat, i)
    {
      assert !OccursAt(s, pat, i + 1);
      if 0 <= i && i + |pat| <= |s[1..]| {
        assert s[1..][i..i + |pat|] == s[i + 1..i + 1 + |pat|];
      }
    }
  }

  /** A string shorter than `pat` is left as it is. */
  lemma {:induction false} ReplaceShort(s: string, pat: string, rep: string)
    requires pat != [] && |s| < |pat|
    ensures Replace(s, pat, rep) == s
  {
    ReplaceAbsent(s, pat, rep);
  }

  /** When the result does not contain the first character of `rep`, nothing
      was replaced. */
  lemma {:induction false} ReplaceWithout(s: string, pat: string, rep: string)
    requires pat != [] && rep != []
    requires rep[0] !in Replace(s, pat, rep)
    ensures Replace(s, pat, rep) == s
    decreases |s|
  {
    if |pat| <= |s| && s[..|pat|] == pat {
    } else if s != [] {
      assert Replace(s, pat, rep) == [s[0]] + Replace(s[1..], pat, rep);
      ReplaceWithout(s[1..], pat, rep);
    }
  }

  /** Only "WORLD" and "ATTRIBUTE" become "WORLD" under the rename. */
  lemma {:induction false} ReplaceToWorld(v: string)
    requires Replace(v, "ATTRIBUTE", "WORLD") == "WORLD"
    ensures v == "WORLD" || v == "ATTRIBUTE"
  {
    var pat := "ATTRIBUTE";
    if |pat| <= |v| && v[..|pat|] == pat {
      var tail := Replace(v[|pat|..], pat, "WORLD");
      assert "WORLD" + tail == "WORLD";
      assert |tail| == 0;
      ReplaceNonEmpty(v[|pat|..], pat, "WORLD");
      assert v == v[..|pat|] + v[|pat|..];
    } else {
      assert v != [];
      var tail := Replace(v[1..], pat, "WORLD");
      assert [v[0]] + tail == "WORLD";
      assert ([v[0]] + tail)[1..] == tail;
      assert tail == "ORLD";
      ReplaceWithout(v[1..], pat, "WORLD");
      assert v == [v[0]] + v[1..];
    }
  }

  /** A non-empty string is never replaced by nothing. */
  lemma {:induction false} ReplaceNonEmpty(s: string, pat: string, rep: string)
    requires pat != [] && rep != []
    ensures Replace(s, pat, rep) == [] <==> s == []
  {
  }

  /** The accepted spellings: a query type resolves to category c exactly when
      its upper-case form is one of c's spellings ("objects", "Terrain",
      "attributes", "worlds", ...). Anything else raises KeyError of the
      normalised name. */
  lemma {:induction false} ResolveSpellings(queryType: string, c: Category)
    ensures Resolve(queryType) == Ok(c) <==> Upper(queryType) in Spellings(c)
    ensures Resolve(queryType).Err? ==> Resolve(queryType).error == KeyError(Normalised(queryType))
  {
    var u := Upper(queryType);
    var v := RemoveSuffix(u, "S");
    if u in Spellings(c) {
      SpellingResolves(u, c);
    }
    if Resolve(queryType) == Ok(c) {
      var w := Replace(v, "ATTRIBUTE", "WORLD");
      assert w == Name(c);
      if c == WORLD {
        ReplaceToWorld(v);
      } else {
        assert 'W' !in w;
        ReplaceWithout(v, "ATTRIBUTE", "WORLD");
      }
      SuffixedSpellings(v, c);
    }
  }

  /** A normalised name, with or without the dropped S, is a spelling. */
  lemma {:induction false} SuffixedSpellings(v: string, c: Category)
    requires v == Name(c) || (c == WORLD && v == "ATTRIBUTE")
    ensures v in Spellings(c) && v + "S" in Spellings(c)
  {
    match c
    case OBJECT => assert v + "S" == "OBJECTS";
    case TERRAIN => assert v + "S" == "TERRAINS";
    case WORLD =>
      if v == "WORLD" {
        assert v + "S" == "WORLDS";
      } else {
        assert v + "S" == "ATTRIBUTES";
      }
  }

  /** Each spelling normalises to its category's name. */
  lemma {:induction false} SpellingResolves(u: string, c: Category)
    requires u in Spellings(c)
    ensures FromName(Replace(RemoveSuffix(u, "S"), "ATTRIBUTE", "WORLD")) == Ok(c)
  {
    match c
    case OBJECT => ObjectSpellings(u);
    case TERRAIN => TerrainSpellings(u);
    case WORLD => WorldSpellings(u);
  }

  lemma {:induction false} ObjectSpellings(u: string)
    requires u in Spellings(OBJECT)
    ensures Replace(RemoveSuffix(u, "S"), "ATTRIBUTE", "WORLD") == "OBJECT"
  {
    var v := RemoveSuffix(u, "S");
    if u == "OBJECTS" {
      RemoveAppendedSuffix("OBJECT", "S");
    } else {
      assert u[|u| - 1..] == "T";
    }
    assert v == "OBJECT";
    ReplaceShort(v, "ATTRIBUTE", "WORLD");
  }

  lemma {:induction false} TerrainSpellings(u: string)
    requires u in Spellings(TERRAIN)
    ensures Replace(RemoveSuffix(u, "S"), "ATTRIBUTE", "WORLD") == "TERRAIN"
  {
    var v := RemoveSuffix(u, "S");
    if u == "TERRAINS" {
      RemoveAppendedSuffix("TERRAIN", "S");
    } else {
      assert u[|u| - 1..] == "N";
    }
    assert v == "TERRAIN";
    ReplaceShort(v, "ATTRIBUTE", "WORLD");
  }

  lemma {:induction false} WorldSpellings(u: string)
    requires u in Spellings(WORLD)
    ensures Replace(RemoveSuffix(u, "S"), "ATTRIBUTE", "WORLD") == "WORLD"
  {
    var v := RemoveSuffix(u, "S");
    if u == "WORLDS" || u == "WORLD" {
      if u == "WORLDS" {
        RemoveAppendedSuffix("WORLD", "S");
      } else {
        assert u[|u| - 1..] == "D";
      }
      assert v == "WORLD";
      ReplaceShort(v, "ATTRIBUTE", "WORLD");
    } else {
      if u == "ATTRIBUTES" {
        RemoveAppendedSuffix("ATTRIBUTE", "S");
      } else {
        assert u[|u| - 1..] == "E";
      }
      assert v == "ATTRIBUTE";
      assert v[..9] == "ATTRIBUTE" && v[9..] == [];
      assert Replace(v, "ATTRIBUTE", "WORLD") == "WORLD" + Replace([], "ATTRIBUTE", "WORLD");
    }
  }

  /** The command line's "attributes" selects the world attributes. */
  lemma ResolveAttributes()
    ensures Upper("attributes") == "ATTRIBUTES"
    ensures Resolve("attributes") == Ok(WORLD)
  {
    UpperLiteral("attributes", "ATTRIBUTES");
    ResolveSpellings("attributes", WORLD);
  }

  /** The command line's "objects" selects the objects. */
  lemma ResolveObjects()
    ensures Upper("objects") == "OBJECTS"
    ensures Resolve("objects") == Ok(OBJECT)
  {
    UpperLiteral("objects", "OBJECTS");
    ResolveSpellings("objects", OBJECT);
  }

  /** The command line's "terrain" selects the terrain. */
  lemma ResolveTerrain()
    ensures Upper("terrain") == "TERRAIN"
    ensures Resolve("terrain") == Ok(TERRAIN)
  {
    UpperLiteral("terrain", "TERRAIN");
    ResolveSpellings("terrain", TERRAIN);
  }

  /** str.upper of a lower-case ASCII word given with its upper-case form. */
  lemma UpperLiteral(s: string, t: string)
    requires forall i :: 0 <= i < |s| ==> 'a' <= s[i] <= 'z'
    requires |s| == |t| && forall i :: 0 <= i < |s| ==> t[i] == (s[i] as int - 32) as char
    ensures Upper(s) == t
  {
    UpperLowerAscii(s);
  }

  /** The command line's "all" upper-cases to "ALL". */
  lemma UpperAll()
    ensures Upper("all") == "ALL"
  {
    UpperLowerAscii("all");
  }

  /** Only one trailing S is dropped, so "objectss" raises KeyError('OBJECTS'). */
  lemma ResolveDoubleSuffix()
    ensures Resolve("objectss") == Err(KeyError("OBJECTS"))
  {
    UpperLiteral("objectss", "OBJECTSS");
    var u := Upper("objectss");
    DoubleSuffixSplit();
    RemoveAppendedSuffix("OBJECTS", "S");
    var v := RemoveSuffix(u, "S");
    ReplaceShort(v, "ATTRIBUTE", "WORLD");
    assert Normalised("objectss") == "OBJECTS";
  }

  lemma DoubleSuffixSplit()
    ensures "OBJECTSS" == "OBJECTS" + "S"
  {
  }

  /** Upper-case ASCII letters are kept by str.upper. */
  lemma {:induction false} UpperUpperAscii(s: string)
    requires forall i :: 0 <= i < |s| ==> 'A' <= s[i] <= 'Z'
    ensures Upper(s) == s
  {
    UpperOfFixed(s);
  }

  /** The item names create_loaded registers resolve to their categories. */
  lemma ResolveCapitalAttributes()
    ensures Resolve("ATTRIBUTES") == Ok(WORLD)
  {
    UpperUpperAscii("ATTRIBUTES");
    ResolveSpellings("ATTRIBUTES", WORLD);
  }

  lemma ResolveCapitalObjects()
    ensures Resolve("OBJECTS") == Ok(OBJECT)
  {
    UpperUpperAscii("OBJECTS");
    ResolveSpellings("OBJECTS", OBJECT);
  }

  lemma ResolveCapitalTerrain()
    ensures Resolve("TERRAIN") == Ok(TERRAIN)
  {
    UpperUpperAscii("TERRAIN");
    ResolveSpellings("TERRAIN", TERRAIN);
  }

  /** The singular "OBJECT" resolves too. */
  lemma ResolveCapitalObject()
    ensures Resolve("OBJECT") == Ok(OBJECT)
  {
    UpperUpperAscii("OBJECT");
    ResolveSpellings("OBJECT", OBJECT);
  }

  /** "Attribute", capitalised and singular, also selects the world attributes. */
  lemma ResolveCapitalised()
    ensures Resolve("Attribute") == Ok(WORLD)
  {
    UpperCapitalised();
    assert Upper("Attribute") in Spellings(WORLD);
    ResolveSpellings("Attribute", WORLD);
  }

  lemma UpperCapitalised()
    ensures Upper("Attribute") == "ATTRIBUTE"
  {
    CapitalisedSplit();
    UpperAppend("A", "ttribute");
    UpperUpperAscii("A");
    UpperTail("ttribute");
    CapitalisedJoin();
  }

  lemma CapitalisedSplit()
    ensures "A" + "ttribute" == "Attribute"
  {
  }

  lemma CapitalisedJoin()
    ensures "A" + "TTRIBUTE" == "ATTRIBUTE"
  {
  }

  lemma UpperCons(ch: char, s: string)
    ensures Upper([ch] + s) == UpperChar(ch) + Upper(s)
  {
    assert ([ch] + s)[1..] == s;
  }

  lemma UpperTail(rest: string)
    requires rest == "ttribute"
    ensures Upper(rest) == "TTRIBUTE"
  {
    UpperLowerAscii(rest);
  }
}
