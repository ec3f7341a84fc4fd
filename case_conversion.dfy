/** Identifier case conversion used by the code generator, and the table
    from OpenAPI primitive types to Python type names. */
module CaseConversion {
  import opened Strings
  import opened Exceptions

  // ---------------------------------------------------------------------
  // OPENAPI_2_TYPE_MAPPING
  // ---------------------------------------------------------------------

  /** The OpenAPI primitive types that have a Python counterpart. */
  datatype OpenApiType = STRING | BOOLEAN | INTEGER | NUMBER | ARRAY
  {
    function Value(): string
    {
      match this
      case STRING => "string"
      case BOOLEAN => "boolean"
      case INTEGER => "integer"
      case NUMBER => "number"
      case ARRAY => "array"
    }

    /** The Python type name the generated code uses. */
    function PythonType(): string
    {
      match this
      case STRING => "str"
      case BOOLEAN => "bool"
      case INTEGER => "int"
      case NUMBER => "float"
      case ARRAY => "list"
    }
  }

  /** `OPENAPI_2_TYPE_MAPPING.get(t)` for a type given as a plain string: the
      keys are `str` enum members, so a raw "string" finds `OpenApiType.STRING`. */
  function MappedType(t: string): (r: Option<string>)
    ensures r.Some? <==> t in ["string", "boolean", "integer", "number", "array"]
    ensures forall o: OpenApiType :: t == o.Value() ==> r == Some(o.PythonType())
  {
    if t == "string" then Some("str")
    else if t == "boolean" then Some("bool")
    else if t == "integer" then Some("int")
    else if t == "number" then Some("float")
    else if t == "array" then Some("list")
    else None
  }

  // ---------------------------------------------------------------------
  // camel_to_snake
  // ---------------------------------------------------------------------

  /** The length of the run of lowercase ASCII letters at the front of `s`. */
  function LowerRun(s: string): (n: nat)
    ensures n <= |s|
    ensures forall i :: 0 <= i < n ==> IsLower(s[i])
    ensures n < |s| ==> !IsLower(s[n])
  {
    if |s| > 0 && IsLower(s[0]) then 1 + LowerRun(s[1..]) else 0
  }

  /** `re.findall("([A-Za-z0-9][a-z]*)", s)`: each match is one ASCII letter
      or digit followed by as many lowercase letters as follow it; every
      other character separates matches and is dropped. */
  function Groups(s: string): (r: seq<string>)
    decreases |s|
  {
    if |s| == 0 then []
    else if !IsAlnum(s[0]) then Groups(s[1..])
    else
      var n := LowerRun(s[1..]);
      [s[..1 + n]] + Groups(s[1 + n..])
  }

  /** A regular-expression match: a letter or digit, then lowercase letters. */
  predicate IsGroup(g: string)
  {
    |g| > 0 && IsAlnum(g[0]) && forall i :: 1 <= i < |g| ==> IsLower(g[i])
  }

  /** The same after `.lower()`: the first character is a lowercase letter or
      a digit. */
  predicate IsLowerGroup(g: string)
  {
    IsGroup(g) && !IsUpper(g[0])
  }

  /** The letters and digits of `s`, in order. */
  function Alnums(s: string): (r: string)
  {
    if |s| == 0 then "" else (if IsAlnum(s[0]) then [s[0]] else "") + Alnums(s[1..])
  }

  function Concat(gs: seq<string>): string
  {
    if |gs| == 0 then "" else gs[0] + Concat(gs[1..])
  }

  function LowerAll(gs: seq<string>): (r: seq<string>)
    ensures |r| == |gs|
    ensures forall i :: 0 <= i < |gs| ==> r[i] == LowerStr(gs[i])
  {
    if |gs| == 0 then [] else [LowerStr(gs[0])] + LowerAll(gs[1..])
  }

  /** Every match is a letter or digit followed by lowercase letters, and the
      matches together are exactly the letters and digits of the input: nothing
      else survives. */
  lemma {:induction false} GroupsCover(s: string)
    ensures forall g | g in Groups(s) :: IsGroup(g)
    ensures Concat(Groups(s)) == Alnums(s)
    decreases |s|
  {
    if |s| > 0 {
      if !IsAlnum(s[0]) {
        GroupsCover(s[1..]);
      } else {
        var n := LowerRun(s[1..]);
        var g := s[..1 + n];
        GroupsCover(s[1 + n..]);
        assert Groups(s) == [g] + Groups(s[1 + n..]);
        AlnumsOfGroup(s, n);
      }
    }
  }

  lemma {:induction false} AlnumsOfGroup(s: string, n: nat)
    requires 1 + n <= |s| && IsAlnum(s[0])
    requires forall i :: 1 <= i < 1 + n ==> IsLower(s[i])
    ensures Alnums(s) == s[..1 + n] + Alnums(s[1 + n..])
    decreases n
  {
    if n > 0 {
      var t := s[1..];
      assert t[0] == s[1];
      AlnumsOfGroup(t, n - 1);
      assert t[..n] == s[1..1 + n];
      assert t[n..] == s[1 + n..];
      assert s[..1 + n] == [s[0]] + s[1..1 + n];
    } else {
      assert s[..1] == [s[0]];
    }
  }

  /** `camel_to_snake`: spaces are removed first (so they join words rather
      than separate them), then the matches are lower-cased and joined by "_". */
  function CamelToSnake(camel: string): (r: string)
  {
    Join(LowerAll(Groups(ReplaceAll(camel, " ", ""))), "_")
  }

  /** The shape of `camel_to_snake` output: non-empty runs of [a-z0-9]
      separated by single underscores, with none at either end. */
  predicate SnakeShaped(r: string)
  {
    (forall i :: 0 <= i < |r| ==> IsLower(r[i]) || IsDigit(r[i]) || r[i] == '_')
    && (|r| > 0 ==> r[0] != '_' && r[|r| - 1] != '_')
    && (forall i :: 0 <= i < |r| - 1 ==> !(r[i] == '_' && r[i + 1] == '_'))
  }

  lemma LowerGroup(g: string)
    requires IsGroup(g)
    ensures IsLowerGroup(LowerStr(g))
  {
  }

  lemma {:induction false} JoinShaped(gs: seq<string>)
    requires forall g | g in gs :: IsLowerGroup(g)
    ensures SnakeShaped(Join(gs, "_"))
  {
    if |gs| > 1 {
      JoinShaped(gs[1..]);
      var t := Join(gs[1..], "_");
      var r := gs[0] + "_" + t;
      assert Join(gs, "_") == r;
      assert |t| > 0 by {
        assert gs[1] in gs;
        if |gs| == 2 {
          assert t == gs[1];
        } else {
          assert t == gs[1] + "_" + Join(gs[2..], "_");
        }
      }
      assert gs[0] in gs;
      var k := |gs[0]|;
      forall i | 0 <= i < |r| ensures IsLower(r[i]) || IsDigit(r[i]) || r[i] == '_' {
        if i > k { assert r[i] == t[i - k - 1]; }
      }
      forall i | 0 <= i < |r| - 1 ensures !(r[i] == '_' && r[i + 1] == '_') {
        if i > k { assert r[i] == t[i - k - 1] && r[i + 1] == t[i - k]; }
      }
      assert r[|r| - 1] == t[|t| - 1];
    } else if |gs| == 1 {
      assert gs[0] in gs;
    }
  }

  /** The output is snake-shaped. */
  lemma CamelToSnakeShape(camel: string)
    ensures SnakeShaped(CamelToSnake(camel))
  {
    var gs := Groups(ReplaceAll(camel, " ", ""));
    GroupsCover(ReplaceAll(camel, " ", ""));
    var ls := LowerAll(gs);
    forall g | g in ls ensures IsLowerGroup(g) {
      var i :| 0 <= i < |ls| && ls[i] == g;
      assert gs[i] in gs;
      LowerGroup(gs[i]);
    }
    JoinShaped(ls);
  }

  /** The letters and digits of the input survive, lower-cased and in order;
      spaces and every other character are dropped. */
  lemma CamelToSnakeKeepsAlnums(camel: string)
    ensures Concat(Groups(ReplaceAll(camel, " ", ""))) == Alnums(ReplaceAll(camel, " ", ""))
  {
    GroupsCover(ReplaceAll(camel, " ", ""));
  }

  /** Matching a lower-cased group followed by an underscore finds exactly the group. */
  lemma GroupsOfGroup(g: string, t: string)
    requires IsLowerGroup(g)
    requires |t| == 0 || t[0] == '_'
    ensures Groups(g + t) == [g] + Groups(t)
  {
    var s := g + t;
    assert s[1..] == g[1..] + t;
    LowerRunOf(g[1..], t);
    assert s[..|g|] == g;
    assert s[|g|..] == t;
  }

  lemma {:induction false} LowerRunOf(u: string, t: string)
    requires forall i :: 0 <= i < |u| ==> IsLower(u[i])
    requires |t| == 0 || t[0] == '_'
    ensures LowerRun(u + t) == |u|
    decreases |u|
  {
    if |u| > 0 {
      assert (u + t)[1..] == u[1..] + t;
      LowerRunOf(u[1..], t);
    } else {
      assert u + t == t;
    }
  }

  lemma {:induction false} GroupsOfJoin(gs: seq<string>)
    requires forall g | g in gs :: IsLowerGroup(g)
    ensures Groups(Join(gs, "_")) == gs
  {
    if |gs| == 1 {
      assert gs[0] in gs;
      GroupsOfGroup(gs[0], "");
      assert gs[0] + "" == gs[0];
    } else if |gs| > 1 {
      assert gs[0] in gs;
      var t := Join(gs[1..], "_");
      GroupsOfJoin(gs[1..]);
      GroupsOfGroup(gs[0], "_" + t);
      assert Join(gs, "_") == gs[0] + ("_" + t);
      assert ("_" + t)[1..] == t;
    }
  }

  lemma {:induction false} LowerAllLower(gs: seq<string>)
    requires forall g | g in gs :: IsLowerGroup(g)
    ensures LowerAll(gs) == gs
  {
    forall i | 0 <= i < |gs| ensures LowerStr(gs[i]) == gs[i] {
      assert gs[i] in gs;
    }
  }

  /** Converting an already converted name changes nothing. */
  lemma CamelToSnakeIdempotent(camel: string)
    ensures CamelToSnake(CamelToSnake(camel)) == CamelToSnake(camel)
  {
    var r := CamelToSnake(camel);
    var gs := Groups(ReplaceAll(camel, " ", ""));
    GroupsCover(ReplaceAll(camel, " ", ""));
    var ls := LowerAll(gs);
    forall g | g in ls ensures IsLowerGroup(g) {
      var i :| 0 <= i < |ls| && ls[i] == g;
      assert gs[i] in gs;
      LowerGroup(gs[i]);
    }
    CamelToSnakeShape(camel);
    assert ' ' !in r;
    ReplaceCharAbsent(r, ' ', "");
    GroupsOfJoin(ls);
    LowerAllLower(ls);
  }

  /** "petId" becomes "pet_id": the uppercase letter starts a new word. */
  lemma PetIdExample()
    ensures CamelToSnake("petId") == "pet_id"
  {
    NoSpaces();
    GroupsPetId();
    GroupsId();
    LowerPetId();
    JoinPetId();
  }

  /** A path becomes a snake-case name: "/pet/{petId}" gives "pet_pet_id";
      the slashes and braces are dropped. */
  lemma PetPathExample()
    ensures CamelToSnake("/pet/{petId}") == "pet_pet_id"
  {
    NoSpaces();
    GroupsSlashPet();
    GroupsPetPath();
    GroupsSlashBrace();
    GroupsPetId();
    GroupsId();
    LowerPetId();
    JoinPetId();
  }

  lemma NoSpaces()
    ensures ReplaceAll("petId", " ", "") == "petId"
    ensures ReplaceAll("/pet/{petId}", " ", "") == "/pet/{petId}"
  {
    ReplaceCharAbsent("petId", ' ', "");
    ReplaceCharAbsent("/pet/{petId}", ' ', "");
  }

  lemma JoinPetId()
    ensures Join(["pet", "id"], "_") == "pet_id"
    ensures Join(["pet", "pet", "id"], "_") == "pet_pet_id"
    ensures LowerAll(["pet", "Id"]) == ["pet", "id"]
  {
    LowerPetId();
  }

  lemma GroupsSlashPet()
    ensures Groups("/pet/{petId}") == Groups("pet/{petId}")
  {
    assert "/pet/{petId}"[1..] == "pet/{petId}";
  }

  lemma GroupsPetPath()
    ensures Groups("pet/{petId}") == ["pet"] + Groups("/{petId}")
  {
    assert LowerRun("et/{petId}") == 2;
    assert "pet/{petId}"[..3] == "pet" && "pet/{petId}"[3..] == "/{petId}";
  }

  lemma GroupsSlashBrace()
    ensures Groups("/{petId}") == Groups("petId}")
  {
    GroupsSkip("/{petId}");
    assert "/{petId}"[1..] == "{petId}";
    GroupsSkip("{petId}");
    assert "{petId}"[1..] == "petId}";
  }

  /** A leading separator is dropped. */
  lemma GroupsSkip(s: string)
    requires |s| > 0 && !IsAlnum(s[0])
    ensures Groups(s) == Groups(s[1..])
  {
  }

  lemma GroupsPetId()
    ensures Groups("petId}") == ["pet"] + Groups("Id}")
    ensures Groups("petId") == ["pet"] + Groups("Id")
  {
    assert LowerRun("etId}") == 2;
    assert "petId}"[..3] == "pet" && "petId}"[3..] == "Id}";
    assert LowerRun("etId") == 2;
    assert "petId"[..3] == "pet" && "petId"[3..] == "Id";
  }

  lemma GroupsId()
    ensures Groups("Id}") == ["Id"]
    ensures Groups("Id") == ["Id"]
  {
    assert LowerRun("d}") == 1;
    assert "Id}"[..2] == "Id" && "Id}"[2..] == "}";
    assert Groups("}") == [] by { assert "}"[1..] == ""; }
    assert LowerRun("d") == 1;
    assert "Id"[..2] == "Id" && "Id"[2..] == "";
  }

  lemma LowerPetId()
    ensures LowerAll(["pet", "pet", "Id"]) == ["pet", "pet", "id"]
    ensures LowerStr("pet") == "pet" && LowerStr("Id") == "id"
  {
    var l := LowerStr("Id");
    assert l[0] == Lower('I') == 'i' && l[1] == Lower('d') == 'd';
    assert l == "id";
    var p := LowerStr("pet");
    assert p[0] == 'p' && p[1] == 'e' && p[2] == 't';
    assert p == "pet";
  }

  // ---------------------------------------------------------------------
  // snake_to_camel
  // ---------------------------------------------------------------------

  /** `s.split(sep)` for a one-character separator: always at least one
      piece, empty pieces kept. */
  function Split(s: string, sep: char): (r: seq<string>)
    ensures |r| > 0
    ensures forall p | p in r :: sep !in p
    decreases |s|
  {
    if |s| == 0 then [""]
    else
      var rest := Split(s[1..], sep);
      if s[0] == sep then [""] + rest else [[s[0]] + rest[0]] + rest[1..]
  }

  /** Splitting and re-joining gives the input back. */
  lemma {:induction false} SplitJoin(s: string, sep: char)
    ensures Join(Split(s, sep), [sep]) == s
    decreases |s|
  {
    if |s| > 0 {
      var rest := Split(s[1..], sep);
      SplitJoin(s[1..], sep);
      if s[0] == sep {
        assert Split(s, sep) == [""] + rest;
        assert ([""] + rest)[1..] == rest;
      } else {
        var r := [[s[0]] + rest[0]] + rest[1..];
        assert Split(s, sep) == r;
        if |rest| == 1 {
          assert Join(r, [sep]) == [s[0]] + rest[0];
        } else {
          assert r[1..] == rest[1..];
          assert Join(rest, [sep]) == rest[0] + [sep] + Join(rest[1..], [sep]);
        }
      }
      assert s == [s[0]] + s[1..];
    }
  }

  /** One segment: kept when it starts with an uppercase ASCII letter,
      otherwise its first character upper-cased; an empty segment has no
      first character (IndexError). */
  function Capitalize(x: string): (r: Result<string>)
    ensures r.Err? <==> x == ""
    ensures r.Ok? ==> |r.value| == |x| && r.value[0] == Upper(x[0]) && r.value[1..] == x[1..]
  {
    if |x| > 0 && IsUpper(x[0]) then Ok(x)
    else if |x| == 0 then Err(IndexError)
    else Ok([Upper(x[0])] + x[1..])
  }

  function CapitalizeAll(xs: seq<string>): (r: Result<string>)
    ensures r.Err? <==> "" in xs
    ensures r.Err? ==> r.error == IndexError
  {
    if |xs| == 0 then Ok("")
    else match Capitalize(xs[0])
      case Err(e) => Err(e)
      case Ok(h) =>
        match CapitalizeAll(xs[1..])
        case Err(e) => InTail(xs, ""); Err(e)
        case Ok(t) => Ok(h + t)
  }

  lemma InTail<T>(xs: seq<T>, x: T)
    requires |xs| > 0 && x in xs[1..]
    ensures x in xs
  {
    var i :| 0 <= i < |xs| - 1 && xs[1..][i] == x;
    assert xs[i + 1] == x;
  }

  lemma NotInTail<T>(xs: seq<T>, x: T)
    requires |xs| > 0 && x !in xs
    ensures x !in xs[1..]
  {
    forall i | 0 <= i < |xs| - 1 ensures xs[1..][i] != x {
      assert xs[1..][i] == xs[i + 1];
    }
  }

  /** The segments `snake_to_camel` works on: "-" and " " count as "_". */
  function Segments(snake: string): seq<string>
  {
    Split(ReplaceAll(ReplaceAll(snake, "-", "_"), " ", "_"), '_')
  }

  /** `snake_to_camel`: the segments, each capitalised, concatenated. */
  function SnakeToCamel(snake: string): (r: Result<string>)
    ensures r.Err? <==> "" in Segments(snake)
  {
    CapitalizeAll(Segments(snake))
  }

  lemma {:induction false} CapitalizeAllFree(xs: seq<string>, c: char)
    requires forall x | x in xs :: c !in x
    requires !IsUpper(c)
    requires CapitalizeAll(xs).Ok?
    ensures c !in CapitalizeAll(xs).value
  {
    if |xs| > 0 {
      assert xs[0] in xs;
      var h := Capitalize(xs[0]).value;
      forall k | 0 <= k < |h| ensures h[k] != c {
        if k == 0 { assert h[0] == Upper(xs[0][0]); } else { assert h[k] == xs[0][k]; }
      }
      CapitalizeAllFree(xs[1..], c);
    }
  }

  /** No separator survives: the output has no "_", "-" or " ". */
  lemma SnakeToCamelNoSeparators(snake: string)
    requires SnakeToCamel(snake).Ok?
    ensures var r := SnakeToCamel(snake).value; '_' !in r && '-' !in r && ' ' !in r
  {
    var a := ReplaceAll(snake, "-", "_");
    var b := ReplaceAll(a, " ", "_");
    ReplaceCharRemoves(a, ' ');
    ReplaceCharReplaced(snake, '-', '_');
    ReplaceCharReplaced(a, ' ', '_');
    var xs := Split(b, '_');
    forall x | x in xs ensures '-' !in x && ' ' !in x {
      SplitPieces(b, '_', x);
    }
    CapitalizeAllFree(xs, '_');
    CapitalizeAllFree(xs, '-');
    CapitalizeAllFree(xs, ' ');
  }

  /** Replacing one character by another leaves none of the first, and adds
      no other character. */
  lemma {:induction false} ReplaceCharReplaced(s: string, c: char, d: char)
    requires c != d
    ensures c !in ReplaceAll(s, [c], [d])
    ensures forall x | x in ReplaceAll(s, [c], [d]) :: x in s || x == d
    decreases |s|
  {
    if |s| > 0 {
      ReplaceCharReplaced(s[1..], c, d);
      if s[..1] != [c] {
        assert s[0] != c;
      }
    }
  }

  /** Each piece of a split consists of characters of the input. */
  lemma {:induction false} SplitPieces(s: string, sep: char, x: string)
    requires x in Split(s, sep)
    ensures forall ch | ch in x :: ch in s
    decreases |s|
  {
    if |s| > 0 {
      var rest := Split(s[1..], sep);
      if s[0] == sep {
        if x != "" {
          assert x in rest;
          SplitPieces(s[1..], sep, x);
        }
      } else if x == [s[0]] + rest[0] {
        SplitPieces(s[1..], sep, rest[0]);
      } else {
        assert x in rest[1..];
        assert x in rest;
        SplitPieces(s[1..], sep, x);
      }
    }
  }

  /** With non-empty segments, each segment contributes its capitalised
      form, in order. */
  lemma {:induction false} SnakeToCamelSegments(xs: seq<string>)
    requires "" !in xs
    ensures CapitalizeAll(xs).Ok?
    ensures CapitalizeAll(xs).value == Concat(CapitalizedParts(xs))
  {
    if |xs| > 0 {
      assert xs[0] in xs;
      NotInTail(xs, "");
      SnakeToCamelSegments(xs[1..]);
    }
  }

  function CapitalizedParts(xs: seq<string>): (r: seq<string>)
    requires "" !in xs
    ensures |r| == |xs|
    ensures forall i :: 0 <= i < |xs| ==> r[i] == Capitalize(xs[i]).value
  {
    if |xs| == 0 then []
    else
      assert xs[0] in xs;
      NotInTail(xs, "");
      [Capitalize(xs[0]).value] + CapitalizedParts(xs[1..])
  }
}
