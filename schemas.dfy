/** The OpenAPI-schema-to-Python-type translator: enum classes, the
    SchemaObject record and its `set_as_*` updates, property fields, and the
    SchemaParser with its `$ref` cache. */
module Schemas {
  import opened Strings
  import opened Exceptions
  import opened Json
  import opened CaseConversion
  import opened Templates

  // ---------------------------------------------------------------------
  // Ordered sets of option strings (`sorted(set)`)
  // ---------------------------------------------------------------------

  /** Python's `<` on two strings: code-point lexicographic order. */
  predicate StrLt(a: string, b: string)
    decreases |a|
  {
    if |a| == 0 then |b| > 0
    else if |b| == 0 then false
    else if a[0] != b[0] then a[0] < b[0]
    else StrLt(a[1..], b[1..])
  }

  lemma {:induction false} StrLtTotal(a: string, b: string)
    ensures StrLt(a, b) || a == b || StrLt(b, a)
    ensures !(StrLt(a, b) && StrLt(b, a))
    ensures !StrLt(a, a)
    decreases |a|
  {
    if |a| > 0 && |b| > 0 && a[0] == b[0] {
      StrLtTotal(a[1..], b[1..]);
      if a[1..] == b[1..] {
        assert a == [a[0]] + a[1..] && b == [b[0]] + b[1..];
      }
    }
    if |a| > 0 {
      StrLtTotal(a[1..], a[1..]);
    }
  }

  lemma {:induction false} StrLtTrans(a: string, b: string, c: string)
    requires StrLt(a, b) && StrLt(b, c)
    ensures StrLt(a, c)
    decreases |a|
  {
    if |a| > 0 && a[0] == b[0] && b[0] == c[0] {
      StrLtTrans(a[1..], b[1..], c[1..]);
    }
  }

  /** Strictly increasing, so also free of repeats. */
  predicate Sorted(xs: seq<string>)
  {
    forall i, j :: 0 <= i < j < |xs| ==> StrLt(xs[i], xs[j])
  }

  /** `options.add(x)` on a set kept as its sorted list. */
  function Insert(xs: seq<string>, x: string): (r: seq<string>)
    requires Sorted(xs)
    ensures Sorted(r)
    ensures forall y :: y in r <==> y in xs || y == x
  {
    if |xs| == 0 then [x]
    else if x == xs[0] then xs
    else if StrLt(x, xs[0]) then
      assert forall j | 0 < j < |xs| :: StrLt(x, xs[j]) by {
        forall j | 0 < j < |xs| ensures StrLt(x, xs[j]) { StrLtTrans(x, xs[0], xs[j]); }
      }
      [x] + xs
    else
      StrLtTotal(x, xs[0]);
      var t := Insert(xs[1..], x);
      assert forall y | y in t :: StrLt(xs[0], y) by {
        forall y | y in t ensures StrLt(xs[0], y) {
          if y != x {
            var j :| 0 <= j < |xs| - 1 && xs[1..][j] == y;
            assert xs[j + 1] == y;
          }
        }
      }
      var r := [xs[0]] + t;
      assert forall i, j | 0 <= i < j < |r| :: StrLt(r[i], r[j]) by {
        forall i, j | 0 <= i < j < |r| ensures StrLt(r[i], r[j]) {
          if i == 0 { assert r[j] == t[j - 1] && t[j - 1] in t; } else { assert r[i] == t[i - 1] && r[j] == t[j - 1]; }
        }
      }
      r
  }

  /** The type text of a union of sorted, distinct options: one option alone,
      otherwise `typing.Union[...]` (or `typing.Optional[...]` when "None" is
      among them, which is dropped) joined by ", ". */
  function UnionText(options: seq<string>): string
  {
    if |options| == 1 then options[0]
    else if "None" in options then "typing.Optional[" + Join(Without(options, "None"), ", ") + "]"
    else "typing.Union[" + Join(options, ", ") + "]"
  }

  function Without(xs: seq<string>, x: string): (r: seq<string>)
    ensures forall y :: y in r <==> y in xs && y != x
  {
    if |xs| == 0 then [] else (if xs[0] == x then [] else [xs[0]]) + Without(xs[1..], x)
  }

  // ---------------------------------------------------------------------
  // EnumObject
  // ---------------------------------------------------------------------

  /** An enum class: its name, its choices and the OpenAPI type they share. */
  datatype EnumObject = EnumObject(name: string, options: seq<Json>, enumType: string)

  /** The member name of one choice: `OP_<choice>` for a non-string enum; for a
      string enum the snake-cased choice, prefixed with the snake-cased enum
      name when it starts with a digit; upper-cased in both cases. A string
      choice that snake-cases to "" has no first character (IndexError); a
      non-string choice of a string enum has no `.replace` (AttributeError). */
  function MemberKey(enumName: string, choice: Json, isString: bool): (r: Result<string>)
    ensures !isString ==> r == Ok(UpperStr("OP_" + PyStr(choice)))
    ensures isString && choice.JStr? ==> (r.Ok? <==> CamelToSnake(choice.s) != "")
    ensures isString && !choice.JStr? ==> r.Err?
  {
    if !isString then Ok(UpperStr("OP_" + PyStr(choice)))
    else if !choice.JStr? then Err(AttributeError("replace"))
    else
      var key := CamelToSnake(choice.s);
      if key == "" then Err(IndexError)
      else if IsDigit(key[0]) then Ok(UpperStr(UpperStr(CamelToSnake(enumName)) + "_" + key))
      else Ok(UpperStr(key))
  }

  /** Letters, digits and underscores only. */
  predicate NameChars(s: string)
  {
    forall i :: 0 <= i < |s| ==> IsLower(s[i]) || IsUpper(s[i]) || IsDigit(s[i]) || s[i] == '_'
  }

  /** Upper-case letters, digits and underscores only: a Python constant name. */
  predicate ConstantChars(s: string)
  {
    forall i :: 0 <= i < |s| ==> IsUpper(s[i]) || IsDigit(s[i]) || s[i] == '_'
  }

  lemma UpperConstant(s: string)
    requires NameChars(s)
    ensures ConstantChars(UpperStr(s)) && NameChars(UpperStr(s))
  {
  }

  lemma JoinNameChars(a: string, b: string)
    requires NameChars(a) && NameChars(b)
    ensures NameChars(a + "_" + b)
  {
    var u := a + "_" + b;
    forall i | 0 <= i < |u| ensures IsLower(u[i]) || IsUpper(u[i]) || IsDigit(u[i]) || u[i] == '_' {
      if i < |a| { assert u[i] == a[i]; } else if i > |a| { assert u[i] == b[i - |a| - 1]; }
    }
  }

  lemma SnakeNameChars(camel: string)
    ensures NameChars(CamelToSnake(camel))
  {
    CamelToSnakeShape(camel);
  }

  /** A string enum gives a member name of upper-case letters, digits and
      underscores; it starts with a letter when the enum name's snake form
      does, and always when the snake-cased choice does not start with a digit. */
  lemma MemberKeyIsConstantName(enumName: string, choice: string)
    requires MemberKey(enumName, JStr(choice), true).Ok?
    ensures ConstantChars(MemberKey(enumName, JStr(choice), true).value)
    ensures var k := MemberKey(enumName, JStr(choice), true).value;
            var prefix := CamelToSnake(enumName);
            |prefix| > 0 && IsLower(prefix[0]) ==> |k| > 0 && IsUpper(k[0])
    ensures var k := MemberKey(enumName, JStr(choice), true).value;
            !IsDigit(CamelToSnake(choice)[0]) ==> |k| > 0 && IsUpper(k[0])
  {
    var key := CamelToSnake(choice);
    var prefix := CamelToSnake(enumName);
    SnakeNameChars(choice);
    SnakeNameChars(enumName);
    if IsDigit(key[0]) {
      UpperConstant(prefix);
      JoinNameChars(UpperStr(prefix), key);
      var u := UpperStr(prefix) + "_" + key;
      UpperConstant(u);
      if |prefix| > 0 {
        assert u[0] == Upper(prefix[0]);
      }
    } else {
      UpperConstant(key);
      CamelToSnakeShape(choice);
      assert IsLower(key[0]);
      assert UpperStr(key)[0] == Upper(key[0]);
    }
  }

  function MemberLines(e: EnumObject, options: seq<Json>): (r: Result<string>)
  {
    if |options| == 0 then Ok("")
    else match MemberKey(e.name, options[0], e.enumType == "string")
      case Err(err) => Err(err)
      case Ok(key) =>
        match MemberLines(e, options[1..])
        case Err(err) => Err(err)
        case Ok(rest) => Ok("    " + key + " = \"" + PyStr(options[0]) + "\"\n" + rest)
  }

  /** `str(EnumObject)`: an `Enum` subclass of the mapped Python type with one
      member per choice, blank lines squeezed out. */
  function EnumText(e: EnumObject): (r: Result<string>)
    ensures r.Ok? <==> MemberLines(e, e.options).Ok?
  {
    match MemberLines(e, e.options)
    case Err(err) => Err(err)
    case Ok(attributes) =>
      var parent := match MappedType(e.enumType) case Some(t) => t case None => "None";
      Ok(Squeeze(BaseClass(e.name, parent + ", Enum", attributes, "")))
  }

  // ---------------------------------------------------------------------
  // SchemaObject
  // ---------------------------------------------------------------------

  /** SchemaObjectType */
  datatype Kind = OBJECT | ALIAS | ARRAY | ENUM | UNION | CONST | TYPE

  /** An enum class as it is collected and printed: its name and its text. */
  datatype EnumClass = EnumClass(name: string, text: string)

  /** The fields of a SchemaObject: `text` is its `_str`, `embedCls` the
      inline object classes it carries, `models` the model names it uses. */
  datatype Schema = Schema(name: string, kind: Option<Kind>, text: string, enums: seq<EnumClass>,
                           embedCls: seq<Schema>, attributes: string, models: set<string>)

  function NewSchema(name: string): (r: Schema)
    ensures r.name == name && r.kind.None? && r.text == "" && r.attributes == ""
    ensures r.enums == [] && r.embedCls == [] && r.models == {}
  {
    Schema(name, None, "", [], [], "", {})
  }

  /** `enums.add(e)` on a set whose elements are equal when their texts are. */
  function AddEnum(enums: seq<EnumClass>, e: EnumClass): (r: seq<EnumClass>)
    ensures exists x | x in r :: x.text == e.text
    ensures forall x | x in enums :: x in r
    ensures (exists x | x in enums :: x.text == e.text) ==> r == enums
  {
    if exists x | x in enums :: x.text == e.text then enums
    else
      assert (enums + [e])[|enums|] == e;
      enums + [e]
  }

  function AddEnums(enums: seq<EnumClass>, more: seq<EnumClass>): (r: seq<EnumClass>)
    ensures forall x | x in enums :: x in r
    decreases |more|
  {
    if |more| == 0 then enums else AddEnums(AddEnum(enums, more[0]), more[1..])
  }

  /** The text of a `const` value inside `typing.Literal[...]`: strings
      double-quoted, anything else as Python prints it. */
  function ConstText(value: Json): (r: string)
    ensures value.JStr? ==> r == "\"" + value.s + "\""
    ensures !value.JStr? ==> r == PyStr(value)
  {
    if value.JStr? then "\"" + value.s + "\"" else PyStr(value)
  }

  /** `set_as_alias`: a `typing.TypeAlias` line under the camel-cased name. */
  function SetAsAlias(s: Schema, aliasType: string): (r: Result<Schema>)
    ensures r.Err? <==> SnakeToCamel(s.name).Err?
    ensures r.Ok? ==> var n := SnakeToCamel(s.name).value;
              r.value == s.(kind := Some(ALIAS), name := n, attributes := aliasType,
                            text := "\n" + n + ": typing.TypeAlias = " + aliasType + "\n")
  {
    match SnakeToCamel(s.name)
    case Err(e) => Err(e)
    case Ok(n) =>
      Ok(s.(kind := Some(ALIAS), name := n, attributes := aliasType,
            text := "\n" + n + ": typing.TypeAlias = " + aliasType + "\n"))
  }

  /** `set_as_array`: a list type, optional with a None default when required. */
  function SetAsArray(s: Schema, arrayType: string, required: bool): (r: Schema)
    ensures r.kind == Some(Kind.ARRAY) && r.attributes == r.text
    ensures r.name == s.name && r.models == s.models && r.enums == s.enums
    ensures required ==> r.text == "typing.Optional[list[" + arrayType + "]] = None"
    ensures !required ==> r.text == "list[" + arrayType + "]"
  {
    var t := if required then "typing.Optional[list[" + arrayType + "]] = None" else "list[" + arrayType + "]";
    s.(kind := Some(Kind.ARRAY), text := t, attributes := t)
  }

  /** `set_as_enum`: the enum class text; the type name is both the
      attribute text and a used model. */
  function SetAsEnum(s: Schema, typeName: string, options: seq<Json>, enumType: string): (r: Result<Schema>)
    ensures r.Err? <==> EnumText(EnumObject(typeName, options, enumType)).Err?
    ensures r.Ok? ==> r.value.kind == Some(ENUM) && r.value.attributes == typeName
                      && r.value.text == EnumText(EnumObject(typeName, options, enumType)).value
                      && r.value.models == s.models + {typeName} && r.value.name == s.name
  {
    match EnumText(EnumObject(typeName, options, enumType))
    case Err(e) => Err(e)
    case Ok(t) => Ok(s.(kind := Some(ENUM), models := s.models + {typeName}, text := t, attributes := typeName))
  }

  /** `set_as_const`: a `typing.Literal` of the value. */
  function SetAsConst(s: Schema, value: Json): (r: Schema)
    ensures r.kind == Some(CONST) && r.attributes == r.text
    ensures r.text == "typing.Literal[" + ConstText(value) + "]"
    ensures r.name == s.name && r.models == s.models
  {
    var t := "typing.Literal[" + ConstText(value) + "]";
    s.(kind := Some(CONST), text := t, attributes := t)
  }

  /** `set_as_type`: the mapped Python type name. */
  function SetAsType(s: Schema, stdType: string): (r: Schema)
    requires MappedType(stdType).Some?
    ensures r.kind == Some(TYPE) && r.attributes == r.text == MappedType(stdType).value
    ensures r.name == s.name && r.models == s.models
  {
    var t := MappedType(stdType).value;
    s.(kind := Some(TYPE), text := t, attributes := t)
  }

  function EmbedTexts(embeds: seq<Schema>): (r: seq<string>)
    ensures |r| == |embeds|
    ensures forall i :: 0 <= i < |embeds| ==> r[i] == embeds[i].text
  {
    if |embeds| == 0 then [] else [embeds[0].text] + EmbedTexts(embeds[1..])
  }

  /** The end of `set_as_object`: "    ..." for a class with neither
      properties nor inherited attributes, then the embedded classes, then the
      `pydantic.BaseModel` class itself. */
  function FinishObject(s: Schema, hadProperties: bool): (r: Schema)
    ensures r.kind == s.kind && r.name == s.name && r.models == s.models && r.enums == s.enums
    ensures !hadProperties && s.attributes == "" ==> r.attributes == "    ..."
    ensures hadProperties || s.attributes != "" ==> r.attributes == s.attributes
  {
    var attributes := if !hadProperties && s.attributes == "" then "    ..." else s.attributes;
    var embeds := Join(EmbedTexts(s.embedCls), "\n\n") + (if |s.embedCls| > 0 then "\n" else "");
    s.(attributes := attributes,
       text := s.text + embeds + Squeeze(BaseClass(s.name, "pydantic.BaseModel", attributes, "")))
  }

  // ---------------------------------------------------------------------
  // PropertyParser: the field line
  // ---------------------------------------------------------------------

  /** One `key=value` argument of a field line for `title` or `description`:
      absent or null gives nothing, a string is double-quoted. */
  function KeywordLine(definition: Json, key: string): (r: seq<string>)
    ensures |r| <= 1
    ensures |r| == 1 ==> "        " + key + "=" <= r[0]
  {
    match Get(definition, key)
    case None => []
    case Some(v) =>
      if v.JNull? then []
      else
        var line := if v.JStr? then "        " + key + "=\"" + v.s + "\",\n"
                    else "        " + key + "=" + PyStr(v) + ",\n";
        assert "        " + key + "=" <= line;
        [line]
  }

  /** The `default=` argument: an explicit default (strings quoted), else
      `default=None` for an Optional type, else nothing. */
  function DefaultLine(definition: Json, defType: string): (r: seq<string>)
    ensures |r| <= 1
    ensures Has(definition, "default") ==> |r| == 1
    ensures !Has(definition, "default") ==> (r == ["        default=None,\n"] <==> Contains(defType, "Optional"))
    ensures !Has(definition, "default") && !Contains(defType, "Optional") ==> r == []
    ensures |r| == 1 ==> "        default=" <= r[0]
  {
    match Get(definition, "default")
    case Some(v) =>
      var d := if v.JStr? then "\"" + v.s + "\"" else PyStr(v);
      var line := "        default=" + d + ",\n";
      assert "        default=" <= line;
      [line]
    case None => if Contains(defType, "Optional") then ["        default=None,\n"] else []
  }

  /** The alias line, present exactly when the snake-cased name differs. */
  function AliasLine(name: string): (r: seq<string>)
    ensures |r| <= 1
    ensures |r| == 1 <==> CamelToSnake(name) != name
    ensures |r| == 1 ==> r[0] == "        alias=\"" + name + "\",\n"
  {
    if CamelToSnake(name) != name then ["        alias=\"" + name + "\",\n"] else []
  }

  function FieldKwargs(name: string, definition: Json, defType: string): seq<string>
  {
    AliasLine(name) + KeywordLine(definition, "title") + KeywordLine(definition, "description")
    + DefaultLine(definition, defType)
  }

  /** `PropertyParser._str`: `snake_name: type = pydantic.Field(...)`, the
      arguments on their own lines when there are any. */
  function FieldText(name: string, definition: Json, defType: string): string
  {
    var kwargs := FieldKwargs(name, definition, defType);
    var fieldKwargs := if |kwargs| > 0 then "\n" + Concat(kwargs) + "    " else "";
    CamelToSnake(name) + ": " + defType + " = pydantic.Field(" + fieldKwargs + ")"
  }

  /** A line that differs at position `i` from every `key=` argument line
      is not among them. */
  lemma DiffersFromKeyword(line: string, definition: Json, key: string, i: nat)
    requires 8 <= i < 8 + |key| && i < |line| && line[i] != key[i - 8]
    ensures line !in KeywordLine(definition, key)
  {
    var t := KeywordLine(definition, key);
    if |t| == 1 {
      assert ("        " + key + "=")[i] == key[i - 8];
    }
  }

  lemma DiffersFromDefault(line: string, definition: Json, defType: string, i: nat)
    requires 8 <= i < 16 && i < |line| && line[i] != "default="[i - 8]
    ensures line !in DefaultLine(definition, defType)
  {
    var f := DefaultLine(definition, defType);
    if |f| == 1 {
      assert "        default="[i] == "default="[i - 8];
    }
  }

  lemma DiffersFromAlias(line: string, name: string, i: nat)
    requires 8 <= i < 14 && i < |line| && line[i] != "alias="[i - 8]
    ensures line !in AliasLine(name)
  {
    var a := AliasLine(name);
    if |a| == 1 {
      assert ("        alias=\"" + name + "\",\n")[i] == "alias="[i - 8];
    }
  }

  /** The field gets an `alias=` argument exactly when its snake-cased name
      differs from the property name. */
  lemma FieldAliasIff(name: string, definition: Json, defType: string)
    ensures var a := "        alias=\"" + name + "\",\n";
            a in FieldKwargs(name, definition, defType) <==> CamelToSnake(name) != name
  {
    var a := "        alias=\"" + name + "\",\n";
    assert a[8] == 'a';
    DiffersFromKeyword(a, definition, "title", 8);
    DiffersFromKeyword(a, definition, "description", 8);
    DiffersFromDefault(a, definition, defType, 8);
    InConcat4(a, AliasLine(name), KeywordLine(definition, "title"), KeywordLine(definition, "description"),
              DefaultLine(definition, defType));
  }

  /** Without an explicit default, `default=None` is emitted exactly for an
      Optional type. */
  lemma FieldDefault(name: string, definition: Json, defType: string)
    requires !Has(definition, "default")
    ensures "        default=None,\n" in FieldKwargs(name, definition, defType) <==> Contains(defType, "Optional")
  {
    var n := "        default=None,\n";
    assert n[8] == 'd' && n[10] == 'f';
    DiffersFromAlias(n, name, 8);
    DiffersFromKeyword(n, definition, "title", 8);
    DiffersFromKeyword(n, definition, "description", 10);
    InConcat4(n, AliasLine(name), KeywordLine(definition, "title"), KeywordLine(definition, "description"),
              DefaultLine(definition, defType));
  }

  /** Membership in four lists joined. */
  lemma InConcat4<T>(x: T, a: seq<T>, b: seq<T>, c: seq<T>, d: seq<T>)
    ensures x in a + b + c + d <==> x in a || x in b || x in c || x in d
  {
  }

  // ---------------------------------------------------------------------
  // Key tests and lookups on decoded values
  // ---------------------------------------------------------------------

  /** The values `key in v` accepts: a dict, a string and a list. */
  predicate Iterable(v: Json)
  {
    v.JObj? || v.JStr? || v.JArr?
  }

  /** `key in v` for a string key: a dict tests its keys, a string its
      substrings and a list its items. */
  predicate In(key: string, v: Json)
    requires Iterable(v)
  {
    if v.JObj? then Has(v, key)
    else if v.JStr? then Contains(v.s, key)
    else JStr(key) in v.items
  }

  /** The TypeError of `key in v` on a value that is not iterable. */
  function NotIterable(v: Json): (r: Error)
    requires !Iterable(v)
    ensures r.TypeError?
  {
    TypeError("argument of type '" + TypeName(v) + "' is not iterable")
  }

  /** The TypeError of `v[key]` with a string key on a string or a list. */
  function BadIndex(v: Json): (r: Error)
    requires v.JStr? || v.JArr?
    ensures r.TypeError?
  {
    if v.JStr? then TypeError("string indices must be integers, not 'str'")
    else TypeError("list indices must be integers or slices, not str")
  }

  /** What Python raises for a value that is not a dict where the code
      tests `key in v` for each of `keys` in turn, reads `v[key]` for the
      first one that holds, and otherwise calls `v.get`: the first test
      fails on a value that is not iterable, the read on a string or list
      holding one of the keys, and `.get` on one holding none. */
  function NotADict(v: Json, keys: seq<string>): (r: Error)
    requires !v.JObj?
    ensures !Iterable(v) ==> r == NotIterable(v)
    ensures Iterable(v) && (exists k | k in keys :: In(k, v)) ==> r == BadIndex(v)
    ensures Iterable(v) && (forall k | k in keys :: !In(k, v)) ==> r == AttributeError("get")
    decreases |keys|
  {
    if !Iterable(v) then NotIterable(v)
    else if |keys| == 0 then AttributeError("get")
    else if In(keys[0], v) then BadIndex(v)
    else
      var r := NotADict(v, keys[1..]);
      assert forall k | k in keys :: k == keys[0] || k in keys[1..];
      r
  }

  /** A value used as a dict key (`d.get(key)` looked up in a table, or
      `key in d`): a list or dict there is unhashable. */
  function Hashable(j: Json): (r: Result<Json>)
    ensures r.Ok? <==> !j.JArr? && !j.JObj?
    ensures r.Ok? ==> r.value == j
  {
    if j.JArr? || j.JObj? then Err(TypeError("unhashable type")) else Ok(j)
  }

  /** The ref `get_ref` is given, as a cache key: a list or dict is
      unhashable, and any other value that is not a string misses the cache
      and has no `replace`. */
  function RefKey(ref: Json): (r: Result<string>)
    ensures r.Ok? <==> ref.JStr?
    ensures r.Ok? ==> r.value == ref.s
    ensures ref.JArr? || ref.JObj? ==> r == Err(TypeError("unhashable type"))
    ensures !ref.JStr? && Hashable(ref).Ok? ==> r == Err(AttributeError("replace"))
  {
    match Hashable(ref)
    case Err(e) => Err(e)
    case Ok(_) => if ref.JStr? then Ok(ref.s) else Err(AttributeError("replace"))
  }

  // ---------------------------------------------------------------------
  // SchemaParser: state and invariants
  // ---------------------------------------------------------------------

  /** The inputs SchemaParser never changes: the raw schemas by name, and the
      prefix their refs carry. */
  datatype Doc = Doc(raw: seq<Member>, baseName: string)

  /** The memo tables: resolved schemas by ref, the refs in resolution order,
      and all model names seen. */
  datatype ParserState = ParserState(schemas: map<string, Schema>, order: seq<string>, models: set<string>)

  /** A result together with the tables as they stand afterwards (also when
      the result is an exception, as Python leaves them). */
  datatype Step<+T> = Step(res: Result<T>, st: ParserState)

  function RawNames(doc: Doc): set<string>
  {
    set k | k in Keys(doc.raw)
  }

  /** The schema name a ref points to: the ref with the prefix removed. */
  function RefName(doc: Doc, ref: string): string
  {
    ReplaceAll(ref, doc.baseName, "")
  }

  /** The raw schema names not yet being resolved further up the call chain. */
  function Unvisited(doc: Doc, visiting: set<string>): nat
  {
    |RawNames(doc) - visiting|
  }

  lemma VisitShrinks(doc: Doc, visiting: set<string>, name: string)
    requires name in RawNames(doc) && name !in visiting
    ensures Unvisited(doc, visiting + {name}) < Unvisited(doc, visiting)
  {
    assert RawNames(doc) - (visiting + {name}) == (RawNames(doc) - visiting) - {name};
  }

  /** `order` lists every cached ref exactly once. */
  predicate CacheInv(st: ParserState)
  {
    (forall i, j :: 0 <= i < j < |st.order| ==> st.order[i] != st.order[j])
    && (forall k | k in st.order :: k in st.schemas)
    && (forall k | k in st.schemas :: k in st.order)
  }

  /** Two states of one SchemaObject that differ at most in `embed_cls`, the
      only field a later step changes on a cached object. */
  predicate UpToEmbeds(a: Schema, b: Schema)
  {
    a.name == b.name && a.kind == b.kind && a.text == b.text && a.enums == b.enums
    && a.attributes == b.attributes && a.models == b.models
  }

  /** What any step of the parser does to the tables: cached schemas stay
      (changed in `embed_cls` at most), refs are only appended to `order`,
      models only grow, and a ref cached during the step names a schema that
      was not being resolved. */
  predicate Grows(doc: Doc, visiting: set<string>, st: ParserState, st2: ParserState)
  {
    (forall k | k in st.schemas :: k in st2.schemas && UpToEmbeds(st.schemas[k], st2.schemas[k]))
    && st.order <= st2.order
    && st.models <= st2.models
    && (forall k | k in st2.schemas && k !in st.schemas :: RefName(doc, k) !in visiting)
  }

  /** A step that succeeds keeps `order` in agreement with the cache. */
  predicate Keeps<T>(st: ParserState, r: Step<T>)
  {
    r.res.Ok? && CacheInv(st) ==> CacheInv(r.st)
  }

  lemma GrowsTrans(doc: Doc, visiting: set<string>, a: ParserState, b: ParserState, c: ParserState)
    requires Grows(doc, visiting, a, b) && Grows(doc, visiting, b, c)
    ensures Grows(doc, visiting, a, c)
  {
  }

  function AddModels(st: ParserState, more: set<string>): (r: ParserState)
    ensures r.schemas == st.schemas && r.order == st.order && r.models == st.models + more
    ensures CacheInv(st) ==> CacheInv(r)
  {
    st.(models := st.models + more)
  }

  /** A property's field line and what it contributes to its class. */
  datatype Property = Property(text: string, enum: Option<EnumClass>, embed: Option<Schema>, models: set<string>)

  // ---------------------------------------------------------------------
  // SchemaParser: get_ref and process_schema
  // ---------------------------------------------------------------------

  /** `get_ref`: a cached ref returns its schema untouched; otherwise the
      schema named by the ref is processed (ValueError when there is none),
      cached, turned into an alias when it is a const under the prefix, and
      appended to `order`. Processing a schema that is already being resolved
      further up is the cycle Python ends with RecursionError. */
  function ResolveRef(doc: Doc, st: ParserState, visiting: set<string>, ref: string): (r: Step<Schema>)
    ensures Grows(doc, visiting, st, r.st) && Keeps(st, r)
    ensures r.res.Ok? ==> ref in r.st.schemas && r.st.schemas[ref] == r.res.value
    decreases Unvisited(doc, visiting), 0, 0
  {
    if ref in st.schemas then Step(Ok(st.schemas[ref]), st)
    else
      var name := RefName(doc, ref);
      match Find(doc.raw, name)
      case None => Step(Err(ValueError("Schema " + ref + " not found")), st)
      case Some(data) =>
        if name in visiting then Step(Err(RecursionError), st)
        else
          VisitShrinks(doc, visiting, name);
          var p := ProcessFragment(doc, st, visiting + {name}, name, data);
          assert ref !in p.st.schemas;
          Resolved(doc, st, visiting, ref, p)
  }

  /** The end of `get_ref` for a newly processed schema: cached under its
      ref, an alias when it is a const under the prefix, appended to `order`. */
  function Resolved(doc: Doc, st: ParserState, visiting: set<string>, ref: string, p: Step<Schema>): (r: Step<Schema>)
    requires RefName(doc, ref) !in visiting && ref !in p.st.schemas
    requires Grows(doc, visiting + {RefName(doc, ref)}, st, p.st) && Keeps(st, p)
    ensures Grows(doc, visiting, st, r.st) && Keeps(st, r)
    ensures r.res.Ok? ==> ref in r.st.schemas && r.st.schemas[ref] == r.res.value
  {
    match p.res
    case Err(e) => Step(Err(e), p.st)
    case Ok(obj) =>
      if Contains(ref, doc.baseName) && obj.kind == Some(CONST) then
        match SetAsAlias(obj, obj.text)
        case Err(e) =>
          // cached already, with its type switched; never appended to `order`
          Step(Err(e), p.st.(schemas := p.st.schemas[ref := obj.(kind := Some(ALIAS))]))
        case Ok(alias) => Step(Ok(alias), CacheRef(p.st, ref, alias))
      else Step(Ok(obj), CacheRef(p.st, ref, obj))
  }

  /** Caching a newly resolved ref and appending it to `order`. */
  function CacheRef(st: ParserState, ref: string, s: Schema): (r: ParserState)
    requires ref !in st.schemas
    ensures r.schemas == st.schemas[ref := s] && r.order == st.order + [ref] && r.models == st.models
    ensures CacheInv(st) ==> CacheInv(r)
  {
    ParserState(st.schemas[ref := s], st.order + [ref], st.models)
  }

  /** `process_schema`: dispatches on the keywords and the `type` of a schema
      fragment. */
  function ProcessFragment(doc: Doc, st: ParserState, visiting: set<string>, name: string, data: Json): (r: Step<Schema>)
    ensures Grows(doc, visiting, st, r.st) && Keeps(st, r)
    ensures r.res.Ok? && Origin(data).Some? ==>
              Origin(data).value in r.st.schemas && r.st.schemas[Origin(data).value] == r.res.value
    decreases Unvisited(doc, visiting), Size(data), 3
  {
    if !data.JObj? then Step(Err(AttributeError("keys")), st)
    else if Has(data, "not") || Has(data, "oneOf") then Step(Err(NotImplementedError("Not implemented")), st)
    else if Has(data, "anyOf") then ProcessUnion(doc, st, visiting, name, data)
    else if Has(data, "allOf") then
      var items := Get(data, "allOf").value;
      if items.JArr? && |items.items| == 1 then
        ItemSmaller(items.items, 0);
        ProcessFragment(doc, st, visiting, name, items.items[0])
      else ProcessAllOf(doc, st, visiting, name, data)
    else
      var t := TypeOf(data);
      if t == JStr("object") then ProcessObject(doc, st, visiting, name, data)
      else if t == JStr("array") then ProcessArray(doc, st, visiting, name, data)
      else if IsScalar(t) then
        var r := ProcessScalar(name, data, t.s);
        // a string enum of several choices adds its class name to the parser's models
        Step(r, if r.Ok? && r.value.kind == Some(ENUM) then AddModels(st, r.value.models) else st)
      else ProcessOther(doc, st, visiting, name, data, t)
  }

  /** A string enum of several choices becomes an Enum class whose name the
      parser records among its models; nothing is cached for it. */
  lemma {:induction false} StringEnumAddsModel(doc: Doc, st: ParserState, visiting: set<string>, name: string,
                            members: seq<Member>, options: seq<Json>)
    requires Find(members, "type") == Some(JStr("string")) && Find(members, "enum") == Some(JArr(options))
    requires |options| != 1
    requires "not" !in Keys(members) && "oneOf" !in Keys(members)
    requires "anyOf" !in Keys(members) && "allOf" !in Keys(members)
    ensures var r := ProcessFragment(doc, st, visiting, name, JObj(members));
            r.res == SetAsEnum(NewSchema(name), name, options, "string")
            && (r.res.Ok? ==> r.st == AddModels(st, {name}))
            && (r.res.Err? ==> r.st == st)
  {
    var data := JObj(members);
    assert !Has(data, "not") && !Has(data, "oneOf") && !Has(data, "anyOf") && !Has(data, "allOf");
    assert TypeOf(data) == JStr("string") && IsScalar(TypeOf(data));
  }

  /** The `type` that `process_schema` matches on: "object" for a schema with
      properties and no type (which it writes back into the document), None
      when absent. */
  function TypeOf(data: Json): Json
  {
    if Has(data, "properties") && !Has(data, "type") then JStr("object") else GetOr(data, "type", JNull)
  }

  predicate IsScalar(t: Json)
  {
    t.JStr? && t.s in ["boolean", "number", "integer", "string"]
  }

  /** The ref whose cached SchemaObject `process_schema` hands back itself
      (rather than a new one), read off the fragment alone: a `$ref` that no
      other case claims, possibly as the single member of an `allOf`. */
  function Origin(data: Json): Option<string>
    decreases Size(data)
  {
    if !data.JObj? || Has(data, "not") || Has(data, "oneOf") || Has(data, "anyOf") then None
    else if Has(data, "allOf") then
      var items := Get(data, "allOf").value;
      if items.JArr? && |items.items| == 1 then
        ItemSmaller(items.items, 0);
        Origin(items.items[0])
      else None
    else
      var t := TypeOf(data);
      if t == JStr("object") || t == JStr("array") || IsScalar(t) then None
      else if Has(data, "$ref") && Get(data, "$ref").value.JStr? then Some(Get(data, "$ref").value.s)
      else None
  }

  /** The boolean, number, integer and string cases: a const becomes a
      Literal, a string enum of one value a Literal and of several an Enum,
      anything else the mapped type. */
  function ProcessScalar(name: string, data: Json, t: string): (r: Result<Schema>)
    requires t in ["boolean", "number", "integer", "string"]
    ensures t != "string" && Has(data, "const") ==> r == Ok(SetAsConst(NewSchema(name), Get(data, "const").value))
    ensures !Has(data, "const") && !(t == "string" && Has(data, "enum")) ==> r == Ok(SetAsType(NewSchema(name), t))
    ensures t == "string" && Has(data, "enum") && Get(data, "enum").value.JArr? ==>
              var options := Get(data, "enum").value.items;
              (|options| == 1 ==> r == Ok(SetAsConst(NewSchema(name), options[0])))
              && (|options| != 1 ==> r == SetAsEnum(NewSchema(name), name, options, "string"))
  {
    var s := NewSchema(name);
    if t == "string" && Has(data, "enum") then
      var options := Get(data, "enum").value;
      if !options.JArr? then Err(TypeError("len() of unsized object"))
      else if |options.items| == 1 then Ok(SetAsConst(s, options.items[0]))
      else SetAsEnum(s, name, options.items, "string")
    else if Has(data, "const") then Ok(SetAsConst(s, Get(data, "const").value))
    else Ok(SetAsType(s, t))
  }

  /** The `anyOf` case: a union of its members' type texts. */
  function ProcessUnion(doc: Doc, st: ParserState, visiting: set<string>, name: string, data: Json): (r: Step<Schema>)
    requires Has(data, "anyOf")
    ensures Grows(doc, visiting, st, r.st) && Keeps(st, r)
    decreases Unvisited(doc, visiting), Size(data), 2
  {
    var items := Get(data, "anyOf").value;
    if !items.JArr? then Step(Err(TypeError("anyOf is not a list")), st)
    else
      var u := UnionOptions(doc, st, visiting, NewSchema(name), items.items, []);
      match u.res
      case Err(e) => Step(Err(e), u.st)
      case Ok(acc) =>
        var text := UnionText(acc.options);
        var s := acc.schema.(kind := Some(UNION), text := text, attributes := text);
        Step(Ok(s), AddModels(u.st, s.models))
  }

  /** The union being built: the schema (its used models) and its options. */
  datatype UnionAcc = UnionAcc(schema: Schema, options: seq<string>)

  /** The loop of `set_as_union` over the `anyOf` members. */
  function UnionOptions(doc: Doc, st: ParserState, visiting: set<string>, s: Schema,
                        items: seq<Json>, options: seq<string>): (r: Step<UnionAcc>)
    requires Sorted(options)
    ensures Grows(doc, visiting, st, r.st) && Keeps(st, r)
    ensures r.res.Ok? ==> Sorted(r.res.value.options)
    ensures r.res.Ok? ==> forall o | o in options :: o in r.res.value.options
    decreases Unvisited(doc, visiting), SizeItems(items), 5
  {
    if |items| == 0 then Step(Ok(UnionAcc(s, options)), st)
    else
      var it := items[0];
      var o := UnionOption(doc, st, visiting, it);
      match o.res
      case Err(e) => Step(Err(e), o.st)
      case Ok(opt) =>
        var s2 := s.(models := s.models + opt.models);
        var r := UnionOptions(doc, o.st, visiting, s2, items[1..], Insert(options, opt.option));
        GrowsTrans(doc, visiting, st, o.st, r.st);
        r
  }

  /** One union member's option text and the models it uses. */
  datatype UnionOpt = UnionOpt(option: string, models: set<string>)

  function UnionOption(doc: Doc, st: ParserState, visiting: set<string>, it: Json): (r: Step<UnionOpt>)
    ensures Grows(doc, visiting, st, r.st) && Keeps(st, r)
    ensures it == JObj([]) ==> r == Step(Ok(UnionOpt("dict", {})), st)
    decreases Unvisited(doc, visiting), 1, 0
  {
    if it == JObj([]) then Step(Ok(UnionOpt("dict", {})), st)
    else if !it.JObj? then Step(Err(NotADict(it, ["$ref", "const", "items"])), st)
    else if Has(it, "$ref") then RefOption(doc, st, visiting, Get(it, "$ref").value, false)
    else if Has(it, "const") then Step(Ok(UnionOpt("typing.Literal[" + ConstText(Get(it, "const").value) + "]", {})), st)
    else if Has(it, "items") then
      var its := Get(it, "items").value;
      if !its.JObj? then Step(Err(NotADict(its, ["$ref"])), st)
      else if Has(its, "$ref") then RefOption(doc, st, visiting, Get(its, "$ref").value, true)
      else
        match Hashable(GetOr(its, "type", JNull))
        case Err(e) => Step(Err(e), st)
        case Ok(ty) =>
          if ty.JStr? && MappedType(ty.s).Some? then Step(Ok(UnionOpt("list[" + MappedType(ty.s).value + "]", {})), st)
          else Step(Err(NotImplementedError("Not supported type")), st)
    else
      match Hashable(GetOr(it, "type", JNull))
      case Err(e) => Step(Err(e), st)
      case Ok(ty) =>
        if ty.JStr? && MappedType(ty.s).Some? then Step(Ok(UnionOpt(MappedType(ty.s).value, {})), st)
        else Step(Err(NotImplementedError("not supported")), st)
  }

  /** A union member that is a string or list reaches `.get` unless it
      holds a key tested before, and a list `type` cannot be looked up in
      the type table. */
  lemma {:induction false} UnionMemberErrors(doc: Doc, st: ParserState, visiting: set<string>)
    ensures UnionOption(doc, st, visiting, JStr("x")).res == Err(AttributeError("get"))
    ensures UnionOption(doc, st, visiting, JStr("$ref")).res == Err(TypeError("string indices must be integers, not 'str'"))
    ensures UnionOption(doc, st, visiting, JObj([Member("items", JArr([]))])).res == Err(AttributeError("get"))
    ensures UnionOption(doc, st, visiting, JObj([Member("type", JArr([JStr("string"), JNull]))])).res
              == Err(TypeError("unhashable type"))
  {
    UnionStringMember(doc, st, visiting);
    UnionRefString(doc, st, visiting);
    UnionListItems(doc, st, visiting);
    UnionListType(doc, st, visiting);
  }

  lemma {:induction false} UnionStringMember(doc: Doc, st: ParserState, visiting: set<string>)
    ensures UnionOption(doc, st, visiting, JStr("x")).res == Err(AttributeError("get"))
  {
    assert NotADict(JStr("x"), ["$ref", "const", "items"]) == AttributeError("get");
  }

  lemma {:induction false} UnionRefString(doc: Doc, st: ParserState, visiting: set<string>)
    ensures UnionOption(doc, st, visiting, JStr("$ref")).res == Err(TypeError("string indices must be integers, not 'str'"))
  {
    assert OccursAt("$ref", "$ref", 0);
    assert NotADict(JStr("$ref"), ["$ref", "const", "items"]) == BadIndex(JStr("$ref"));
  }

  lemma {:induction false} UnionListItems(doc: Doc, st: ParserState, visiting: set<string>)
    ensures UnionOption(doc, st, visiting, JObj([Member("items", JArr([]))])).res == Err(AttributeError("get"))
  {
    var it := JObj([Member("items", JArr([]))]);
    assert !Has(it, "$ref") && !Has(it, "const") && Get(it, "items") == Some(JArr([]));
    assert NotADict(JArr([]), ["$ref"]) == AttributeError("get");
  }

  lemma {:induction false} UnionListType(doc: Doc, st: ParserState, visiting: set<string>)
    ensures UnionOption(doc, st, visiting, JObj([Member("type", JArr([JStr("string"), JNull]))])).res
              == Err(TypeError("unhashable type"))
  {
    var it := JObj([Member("type", JArr([JStr("string"), JNull]))]);
    assert !Has(it, "$ref") && !Has(it, "const") && !Has(it, "items");
    assert Hashable(GetOr(it, "type", JNull)) == Err(TypeError("unhashable type"));
  }

  /** A union member given by `$ref` (as a list's items when `list`): the
      resolved model's name, which the union uses. */
  function RefOption(doc: Doc, st: ParserState, visiting: set<string>, ref: Json, list: bool): (r: Step<UnionOpt>)
    ensures Grows(doc, visiting, st, r.st) && Keeps(st, r)
    decreases Unvisited(doc, visiting), 0, 1
  {
    match RefKey(ref)
    case Err(e) => Step(Err(e), st)
    case Ok(key) =>
      var g := ResolveRef(doc, st, visiting, key);
      match g.res
      case Err(e) => Step(Err(e), g.st)
      case Ok(obj) => Step(Ok(UnionOpt(if list then "list[" + obj.name + "]" else obj.name, {obj.name})), g.st)
  }

  /** The `allOf` case with other than one member (a single member stands
      for itself): the members' attributes are concatenated into one object
      class. */
  function ProcessAllOf(doc: Doc, st: ParserState, visiting: set<string>, name: string, data: Json): (r: Step<Schema>)
    requires Has(data, "allOf")
    ensures Grows(doc, visiting, st, r.st) && Keeps(st, r)
    decreases Unvisited(doc, visiting), Size(data), 2
  {
    var items := Get(data, "allOf").value;
    if !items.JArr? then Step(Err(TypeError("allOf is not a list")), st)
    else
      var a := AllOfItems(doc, st, visiting, name, items.items, NewSchema(name));
      match a.res
      case Err(e) => Step(Err(e), a.st)
      case Ok(s) =>
        match SnakeToCamel(name)
        case Err(e) => Step(Err(e), a.st)
        case Ok(n) =>
          var obj := FinishObject(s.(kind := Some(OBJECT), name := n, models := s.models + {n}), false);
          Step(Ok(obj), AddModels(a.st, obj.models))
  }

  function AllOfItems(doc: Doc, st: ParserState, visiting: set<string>, name: string,
                      items: seq<Json>, s: Schema): (r: Step<Schema>)
    ensures Grows(doc, visiting, st, r.st) && Keeps(st, r)
    ensures r.res.Ok? ==> r.res.value.name == s.name && r.res.value.models == s.models
    decreases Unvisited(doc, visiting), SizeItems(items), 5
  {
    if |items| == 0 then Step(Ok(s), st)
    else
      ItemSmaller(items, 0);
      var p := ProcessFragment(doc, st, visiting, name, items[0]);
      match p.res
      case Err(e) => Step(Err(e), p.st)
      case Ok(child) =>
        var st1 := AddModels(p.st, child.models);
        var r := AllOfItems(doc, st1, visiting, name, items[1..], s.(attributes := s.attributes + child.attributes));
        GrowsTrans(doc, visiting, st, st1, r.st);
        r
  }

  /** The object case: the camel-cased class with one field per property.
      Each property is first tested against `required` (absent or None
      standing for no names), which fails on a value that is not iterable. */
  function ProcessObject(doc: Doc, st: ParserState, visiting: set<string>, name: string, data: Json): (r: Step<Schema>)
    ensures Grows(doc, visiting, st, r.st) && Keeps(st, r)
    ensures var props := GetOr(data, "properties", JNull);
            var required := GetOr(data, "required", JNull);
            SnakeToCamel(name).Ok? && props.JObj? && |props.members| > 0 && !required.JNull? && !Iterable(required) ==>
              r == Step(Err(NotIterable(required)), st)
    decreases Unvisited(doc, visiting), Size(data), 2
  {
    match SnakeToCamel(name)
    case Err(e) => Step(Err(e), st)
    case Ok(n) =>
      var props := GetOr(data, "properties", JNull);
      var required := GetOr(data, "required", JNull);
      if Truthy(props) && !props.JObj? then Step(Err(AttributeError("items")), st)
      else if Truthy(props) && !required.JNull? && !Iterable(required) then Step(Err(NotIterable(required)), st)
      else
        var members := if Truthy(props) then props.members else [];
        assert SizeMembers(members) < Size(data);
        var s0 := NewSchema(n).(kind := Some(OBJECT), models := {n});
        var p := ObjectProperties(doc, st, visiting, s0, members);
        match p.res
        case Err(e) => Step(Err(e), p.st)
        case Ok(s) =>
          var obj := FinishObject(s, |members| > 0);
          Step(Ok(obj), AddModels(p.st, obj.models))
  }

  /** The loop of `set_as_object` over the properties. */
  function ObjectProperties(doc: Doc, st: ParserState, visiting: set<string>, s: Schema,
                            members: seq<Member>): (r: Step<Schema>)
    ensures Grows(doc, visiting, st, r.st) && Keeps(st, r)
    ensures r.res.Ok? ==> r.res.value.name == s.name && r.res.value.kind == s.kind
    ensures r.res.Ok? ==> s.models <= r.res.value.models
    decreases Unvisited(doc, visiting), SizeMembers(members), 5
  {
    if |members| == 0 then Step(Ok(s), st)
    else
      var p := ParseProperty(doc, st, visiting, members[0].key, members[0].value);
      match p.res
      case Err(e) => Step(Err(e), p.st)
      case Ok(prop) =>
        var s1 := s.(models := s.models + prop.models,
                     enums := if prop.enum.Some? then AddEnum(s.enums, prop.enum.value) else s.enums,
                     embedCls := if prop.embed.Some? then s.embedCls + [prop.embed.value] else s.embedCls,
                     attributes := s.attributes + "\n    " + prop.text);
        var r := ObjectProperties(doc, p.st, visiting, s1, members[1..]);
        GrowsTrans(doc, visiting, st, p.st, r.st);
        r
  }

  /** `PropertyParser.parse`: the property's schema is processed under the
      camel-cased property name; an object is referred to by its class name,
      anything else by its attribute text. */
  function ParseProperty(doc: Doc, st: ParserState, visiting: set<string>, name: string, definition: Json): (r: Step<Property>)
    ensures Grows(doc, visiting, st, r.st) && Keeps(st, r)
    ensures SnakeToCamel(name).Err? ==> r == Step(Err(IndexError), st)
    decreases Unvisited(doc, visiting), Size(definition), 4
  {
    match SnakeToCamel(name)
    case Err(e) => Step(Err(e), st)
    case Ok(n) =>
      var p := ProcessFragment(doc, st, visiting, n, definition);
      match p.res
      case Err(e) => Step(Err(e), p.st)
      case Ok(schema) =>
        var defType := if schema.kind != Some(OBJECT) then schema.attributes else schema.name;
        var embeds := schema.embedCls;
        var embed := if |embeds| > 0 then Some(embeds[|embeds| - 1]) else None;
        // the pop also empties the slot on a cached object
        var st1 := if |embeds| > 0 && Origin(definition).Some? then
                     var k := Origin(definition).value;
                     p.st.(schemas := p.st.schemas[k := schema.(embedCls := embeds[..|embeds| - 1])])
                   else p.st;
        var enum := if schema.kind == Some(ENUM) then Some(EnumClass(schema.name, schema.text))
                    else if |schema.enums| > 0 then Some(schema.enums[0]) else None;
        Step(Ok(Property(FieldText(name, definition, defType), enum, embed, schema.models)), st1)
  }

  /** The array case: a list of a mapped type, of a referenced schema, of a
      union, or of an inline object class that the alias carries. */
  function ProcessArray(doc: Doc, st: ParserState, visiting: set<string>, name: string, data: Json): (r: Step<Schema>)
    ensures Grows(doc, visiting, st, r.st) && Keeps(st, r)
    decreases Unvisited(doc, visiting), Size(data), 2
  {
    var items := GetOr(data, "items", JObj([]));
    if !items.JObj? then Step(Err(AttributeError("get")), st)
    else
      assert Size(items) < Size(data) || items == JObj([]);
      match Hashable(GetOr(items, "type", JNull))
      case Err(e) => Step(Err(e), st)
      case Ok(arrayType) =>
        var s := NewSchema(name);
        if arrayType.JStr? && MappedType(arrayType.s).Some? then
          Step(SetAsAlias(s, "list[" + MappedType(arrayType.s).value + "]"), st)
        else if Has(items, "$ref") then
          match RefKey(Get(items, "$ref").value)
          case Err(e) => Step(Err(e), st)
          case Ok(ref) =>
            var g := ResolveRef(doc, st, visiting, ref);
            match g.res
            case Err(e) => Step(Err(e), g.st)
            case Ok(obj) =>
              var st1 := AddModels(g.st, {obj.name} + obj.models);
              var s1 := s.(enums := AddEnums(s.enums, obj.enums), models := s.models + obj.models);
              Step(SetAsAlias(s1, "list[" + obj.name + "]"), st1)
        else if Has(items, "anyOf") then
          var p := ProcessFragment(doc, st, visiting, name, items);
          match p.res
          case Err(e) => Step(Err(e), p.st)
          case Ok(obj) =>
            var s1 := s.(enums := AddEnums(s.enums, obj.enums), models := s.models + obj.models);
            Step(SetAsAlias(s1, "list[" + obj.text + "]"), AddModels(p.st, obj.models))
        else if arrayType == JStr("object") then
          var p := ProcessFragment(doc, st, visiting, name, items);
          match p.res
          case Err(e) => Step(Err(e), p.st)
          case Ok(obj) =>
            var s1 := s.(embedCls := s.embedCls + [obj], models := s.models + obj.models);
            Step(SetAsAlias(s1, "list[" + obj.name + "]"), p.st)
        else Step(Err(NotImplementedError("Type for list '" + PyStr(arrayType) + "' not supported")), st)
  }

  /** Any other `type`: a `$ref` resolves to the cached schema itself, a
      `const` becomes a Literal, anything else is not supported. */
  function ProcessOther(doc: Doc, st: ParserState, visiting: set<string>, name: string, data: Json, t: Json): (r: Step<Schema>)
    ensures Grows(doc, visiting, st, r.st) && Keeps(st, r)
    ensures r.res.Ok? && Has(data, "$ref") && Get(data, "$ref").value.JStr? ==>
              var ref := Get(data, "$ref").value.s;
              ref in r.st.schemas && r.st.schemas[ref] == r.res.value
    decreases Unvisited(doc, visiting), Size(data), 2
  {
    if Has(data, "$ref") then
      match RefKey(Get(data, "$ref").value)
      case Err(e) => Step(Err(e), st)
      case Ok(ref) =>
        var g := ResolveRef(doc, st, visiting, ref);
        match g.res
        case Err(e) => Step(Err(e), g.st)
        case Ok(obj) => Step(Ok(obj), AddModels(g.st, {obj.name} + obj.models))
    else if Has(data, "const") then Step(Ok(SetAsConst(NewSchema(name), Get(data, "const").value)), st)
    else Step(Err(NotImplementedError("Type " + PyStr(t) + " not supported")), st)
  }

  /** A list `$ref` is unhashable where `get_ref` looks it up. */
  lemma {:induction false} UnhashableRef(doc: Doc, st: ParserState, visiting: set<string>, name: string)
    ensures ProcessOther(doc, st, visiting, name, JObj([Member("$ref", JArr([]))]), JNull).res
              == Err(TypeError("unhashable type"))
  {
  }

  /** A dict `$ref` in an array's items is unhashable, and so is a list
      `type` before it, also beside a string `$ref`. */
  lemma {:induction false} UnhashableItems(doc: Doc, st: ParserState, visiting: set<string>, name: string, ref: string)
    ensures ProcessArray(doc, st, visiting, name, JObj([Member("items", JObj([Member("$ref", JObj([]))]))])).res
              == Err(TypeError("unhashable type"))
    ensures ProcessArray(doc, st, visiting, name,
                         JObj([Member("items", JObj([Member("type", JArr([JStr("x")])), Member("$ref", JStr(ref))]))])).res
              == Err(TypeError("unhashable type"))
  {
  }

  // ---------------------------------------------------------------------
  // Properties of get_ref and process_schema
  // ---------------------------------------------------------------------

  /** A cached ref is returned as it is, and nothing is processed again. */
  lemma GetRefCached(doc: Doc, st: ParserState, visiting: set<string>, ref: string)
    requires ref in st.schemas
    ensures ResolveRef(doc, st, visiting, ref) == Step(Ok(st.schemas[ref]), st)
  {
  }

  /** A repeated `get_ref` returns the object the first call cached and
      changes nothing. */
  lemma GetRefTwice(doc: Doc, st: ParserState, ref: string)
    requires ResolveRef(doc, st, {}, ref).res.Ok?
    ensures var first := ResolveRef(doc, st, {}, ref);
            ResolveRef(doc, first.st, {}, ref) == first
  {
    var first := ResolveRef(doc, st, {}, ref);
    GetRefCached(doc, first.st, {}, ref);
  }

  /** A ref whose stripped name is not a raw schema raises ValueError and
      leaves the tables alone. */
  lemma GetRefNotFound(doc: Doc, st: ParserState, visiting: set<string>, ref: string)
    requires ref !in st.schemas && RefName(doc, ref) !in RawNames(doc)
    ensures ResolveRef(doc, st, visiting, ref) == Step(Err(ValueError("Schema " + ref + " not found")), st)
  {
  }

  /** A newly resolved ref goes to the end of `order`, after every ref its
      processing resolved: dependencies are listed before their users. */
  lemma GetRefAppends(doc: Doc, st: ParserState, visiting: set<string>, ref: string)
    requires ref !in st.schemas && ResolveRef(doc, st, visiting, ref).res.Ok?
    ensures var r := ResolveRef(doc, st, visiting, ref);
            st.order <= r.st.order && |r.st.order| > 0 && r.st.order[|r.st.order| - 1] == ref
  {
  }

  /** `not` and `oneOf` are refused before anything else is looked at. */
  lemma NotAndOneOfRefused(doc: Doc, st: ParserState, visiting: set<string>, name: string, data: Json)
    requires data.JObj? && (Has(data, "not") || Has(data, "oneOf"))
    ensures ProcessFragment(doc, st, visiting, name, data) == Step(Err(NotImplementedError("Not implemented")), st)
  {
  }

  /** A schema that is nothing but a `$ref` to itself is the cycle that
      Python ends with RecursionError. */
  lemma SelfReferenceIsRecursion(doc: Doc, st: ParserState, ref: string)
    requires ref !in st.schemas
    requires Find(doc.raw, RefName(doc, ref)) == Some(JObj([Member("$ref", JStr(ref))]))
    ensures ResolveRef(doc, st, {}, ref).res == Err(RecursionError)
  {
    var name := RefName(doc, ref);
    var data := JObj([Member("$ref", JStr(ref))]);
    assert Keys(data.members) == ["$ref"];
    assert TypeOf(data) == JNull;
    assert ResolveRef(doc, st, {name}, ref) == Step(Err(RecursionError), st);
    assert ProcessOther(doc, st, {name}, name, data, JNull) == Step(Err(RecursionError), st);
    assert ProcessFragment(doc, st, {name}, name, data) == Step(Err(RecursionError), st);
    var none: set<string> := {};
    assert none + {name} == {name};
  }

  // ---------------------------------------------------------------------
  // Properties of set_as_union
  // ---------------------------------------------------------------------

  lemma SortedHeadLeast(xs: seq<string>, z: string)
    requires Sorted(xs) && z in xs
    ensures z == xs[0] || StrLt(xs[0], z)
  {
  }

  lemma SameElementsEmpty(xs: seq<string>, ys: seq<string>)
    requires forall y :: y in xs <==> y in ys
    ensures |xs| == 0 <==> |ys| == 0
  {
    if |xs| > 0 {
      assert xs[0] in xs;
    }
    if |ys| > 0 {
      assert ys[0] in ys;
    }
  }

  /** A sorted list without repeats is determined by its elements. */
  lemma {:induction false} SortedUnique(xs: seq<string>, ys: seq<string>)
    requires Sorted(xs) && Sorted(ys)
    requires forall y :: y in xs <==> y in ys
    ensures xs == ys
    decreases |xs|
  {
    SameElementsEmpty(xs, ys);
    if |xs| > 0 {
      var x, y := xs[0], ys[0];
      SortedHeadLeast(xs, y);
      SortedHeadLeast(ys, x);
      StrLtTotal(x, y);
      assert x == y;
      StrLtTotal(x, x);
      forall z ensures z in xs[1..] <==> z in ys[1..] {
        if z in xs[1..] {
          var i :| 0 <= i < |xs[1..]| && xs[1..][i] == z;
          assert StrLt(xs[0], xs[i + 1]);
          assert z in ys && z != ys[0];
          assert z in ys[1..];
        }
        if z in ys[1..] {
          var j :| 0 <= j < |ys[1..]| && ys[1..][j] == z;
          assert StrLt(ys[0], ys[j + 1]);
          assert z in xs && z != xs[0];
          assert z in xs[1..];
        }
      }
      SortedUnique(xs[1..], ys[1..]);
      assert xs == [x] + xs[1..] && ys == [y] + ys[1..];
    }
  }

  /** The options form a set: the order in which the `anyOf` members add
      them does not matter. */
  lemma InsertCommutes(xs: seq<string>, a: string, b: string)
    requires Sorted(xs)
    ensures Insert(Insert(xs, a), b) == Insert(Insert(xs, b), a)
  {
    SortedUnique(Insert(Insert(xs, a), b), Insert(Insert(xs, b), a));
  }

  /** Adding an option already present changes nothing. */
  lemma InsertPresent(xs: seq<string>, a: string)
    requires Sorted(xs) && a in xs
    ensures Insert(xs, a) == xs
  {
    SortedUnique(Insert(xs, a), xs);
  }

  // ---------------------------------------------------------------------
  // parse and print
  // ---------------------------------------------------------------------

  /** The loop of `parse` over the first names of the raw schemas. */
  function ParseRefs(doc: Doc, st: ParserState, names: seq<string>): (r: Step<()>)
    ensures Grows(doc, {}, st, r.st) && Keeps(st, r)
    ensures r.res.Ok? ==> forall n | n in names :: doc.baseName + n in r.st.schemas
    decreases |names|
  {
    if |names| == 0 then Step(Ok(()), st)
    else
      var p := ParseRefs(doc, st, names[..|names| - 1]);
      match p.res
      case Err(_) => p
      case Ok(_) =>
        var g := ResolveRef(doc, p.st, {}, doc.baseName + names[|names| - 1]);
        GrowsTrans(doc, {}, st, p.st, g.st);
        assert forall n | n in names :: n in names[..|names| - 1] || n == names[|names| - 1];
        Step(if g.res.Ok? then Ok(()) else Err(g.res.error), g.st)
  }

  /** `parse`: nothing once any schema is cached; otherwise every raw schema
      is resolved through its ref, in document order. */
  function ParseAll(doc: Doc, st: ParserState): (r: Step<()>)
    ensures |st.schemas| > 0 ==> r == Step(Ok(()), st)
    ensures Grows(doc, {}, st, r.st) && Keeps(st, r)
    ensures |st.schemas| == 0 && r.res.Ok? ==> forall n | n in RawNames(doc) :: doc.baseName + n in r.st.schemas
  {
    if |st.schemas| > 0 then Step(Ok(()), st) else ParseRefs(doc, st, Keys(doc.raw))
  }

  lemma ParseRefsSnoc(doc: Doc, st: ParserState, names: seq<string>, i: nat)
    requires i < |names| && ParseRefs(doc, st, names[..i]).res.Ok?
    ensures var g := ResolveRef(doc, ParseRefs(doc, st, names[..i]).st, {}, doc.baseName + names[i]);
            ParseRefs(doc, st, names[..i + 1]) == Step(if g.res.Ok? then Ok(()) else Err(g.res.error), g.st)
  {
    assert names[..i + 1][..i] == names[..i];
  }

  /** Once a `get_ref` of `parse` fails, the rest of the names are skipped. */
  lemma {:induction false} ParseRefsErrorSticks(doc: Doc, st: ParserState, names: seq<string>, i: nat)
    requires i <= |names| && ParseRefs(doc, st, names[..i]).res.Err?
    ensures ParseRefs(doc, st, names) == ParseRefs(doc, st, names[..i])
    decreases |names| - i
  {
    if i < |names| {
      assert names[..i + 1][..i] == names[..i];
      ParseRefsErrorSticks(doc, st, names, i + 1);
    } else {
      assert names[..i] == names;
    }
  }

  /** Parsing a second time changes nothing. */
  lemma ParseIdempotent(doc: Doc, st: ParserState)
    requires ParseAll(doc, st).res.Ok?
    ensures ParseAll(doc, ParseAll(doc, st).st) == Step(Ok(()), ParseAll(doc, st).st)
  {
    var r := ParseAll(doc, st);
    if |st.schemas| == 0 && |doc.raw| > 0 {
      assert doc.raw[0].key in RawNames(doc);
      assert doc.baseName + doc.raw[0].key in r.st.schemas;
    }
  }

  /** The enum classes of one schema that are printed: those whose name has
      not been printed yet, with the names they add. */
  datatype EnumsOut = EnumsOut(texts: seq<string>, names: seq<string>, seen: set<string>)

  predicate Distinct(xs: seq<string>)
  {
    forall i, j :: 0 <= i < j < |xs| ==> xs[i] != xs[j]
  }

  function EnumsUpTo(enums: seq<EnumClass>, j: nat, seen: set<string>): (r: EnumsOut)
    requires j <= |enums|
    ensures Distinct(r.names) && |r.texts| == |r.names|
    ensures forall n | n in r.names :: n !in seen
    ensures r.seen == seen + set n | n in r.names
  {
    if j == 0 then EnumsOut([], [], seen)
    else
      var p := EnumsUpTo(enums, j - 1, seen);
      var e := enums[j - 1];
      if e.name !in p.seen then EnumsOut(p.texts + [e.text], p.names + [e.name], p.seen + {e.name})
      else p
  }

  /** The text printed so far, the enum names already printed (or printed
      as schemas) and, in order, the enum classes printed ahead of schemas. */
  datatype Printed = Printed(out: string, seen: set<string>, emitted: seq<string>)

  /** `print` over the first `k` refs of `order`: before each schema, the
      enum classes it uses that were not printed yet; a printed enum schema
      also counts as printed. A ref without a cached schema fails. */
  function PrintUpTo(st: ParserState, k: nat): (r: Result<Printed>)
    requires k <= |st.order|
    ensures r.Ok? ==> Distinct(r.value.emitted) && forall n | n in r.value.emitted :: n in r.value.seen
  {
    if k == 0 then Ok(Printed("", {}, []))
    else
      match PrintUpTo(st, k - 1)
      case Err(e) => Err(e)
      case Ok(p) =>
        var ref := st.order[k - 1];
        if ref !in st.schemas then Err(AttributeError("enums"))
        else Ok(PrintOne(p, st.schemas[ref]))
  }

  /** One schema's turn in `print`. */
  function PrintOne(p: Printed, schema: Schema): (r: Printed)
    requires Distinct(p.emitted) && forall n | n in p.emitted :: n in p.seen
    ensures Distinct(r.emitted) && forall n | n in r.emitted :: n in r.seen
  {
    var es := EnumsUpTo(schema.enums, |schema.enums|, p.seen);
    var head := if |es.texts| > 0 then Join(es.texts, "\n") + "\n" else "";
    var seen := if schema.kind == Some(ENUM) then es.seen + {schema.name} else es.seen;
    var emitted := p.emitted + es.names;
    assert Distinct(emitted) by {
      forall i, j | 0 <= i < j < |emitted| ensures emitted[i] != emitted[j] {
        if j >= |p.emitted| && i < |p.emitted| {
          assert emitted[j] in es.names;
        }
      }
    }
    Printed(p.out + head + schema.text + "\n", seen, emitted)
  }

  /** Once a ref fails to print, the whole print fails. */
  lemma {:induction false} PrintErrorSticks(st: ParserState, k: nat, m: nat)
    requires k <= m <= |st.order| && PrintUpTo(st, k).Err?
    ensures PrintUpTo(st, m).Err?
    decreases m
  {
    if m > k {
      PrintErrorSticks(st, k, m - 1);
    }
  }

  /** Under the cache invariant every ref of `order` prints. */
  lemma {:induction false} PrintTotal(st: ParserState, k: nat)
    requires CacheInv(st) && k <= |st.order|
    ensures PrintUpTo(st, k).Ok?
  {
    if k > 0 {
      PrintTotal(st, k - 1);
      assert st.order[k - 1] in st.order;
    }
  }

  /** The loop of `parse`: `get_ref` on each name under the prefix, stopping
      at the first exception. */
  method ResolveAll(doc: Doc, st0: ParserState, names: seq<string>) returns (r: Step<()>)
    ensures r == ParseRefs(doc, st0, names)
  {
    var st := st0;
    var i := 0;
    while i < |names|
      invariant 0 <= i <= |names|
      invariant ParseRefs(doc, st0, names[..i]) == Step(Ok(()), st)
    {
      ParseRefsSnoc(doc, st0, names, i);
      var g := ResolveRef(doc, st, {}, doc.baseName + names[i]);
      if g.res.Err? {
        ParseRefsErrorSticks(doc, st0, names, i + 1);
        return Step(Err(g.res.error), g.st);
      }
      st := g.st;
      i := i + 1;
    }
    assert names[..i] == names;
    r := Step(Ok(()), st);
  }

  /** The inner loop of `print`: the enum classes of one schema not
      printed yet. */
  method NewEnums(enums: seq<EnumClass>, seen: set<string>) returns (r: EnumsOut)
    ensures r == EnumsUpTo(enums, |enums|, seen)
  {
    r := EnumsOut([], [], seen);
    var j := 0;
    while j < |enums|
      invariant 0 <= j <= |enums|
      invariant EnumsUpTo(enums, j, seen) == r
    {
      var e := enums[j];
      if e.name !in r.seen {
        r := EnumsOut(r.texts + [e.text], r.names + [e.name], r.seen + {e.name});
      }
      j := j + 1;
    }
  }

  /** One schema's turn in `print`: its new enum classes, then itself. */
  method PrintSchema(p: Printed, schema: Schema) returns (r: Printed)
    requires Distinct(p.emitted) && forall n | n in p.emitted :: n in p.seen
    ensures r == PrintOne(p, schema)
  {
    var es := NewEnums(schema.enums, p.seen);
    var out := p.out;
    if |es.texts| > 0 {
      out := out + Join(es.texts, "\n") + "\n";
    }
    var seen := es.seen;
    if schema.kind == Some(ENUM) {
      seen := seen + {schema.name};
    }
    r := Printed(out + schema.text + "\n", seen, p.emitted + es.names);
  }

  // ---------------------------------------------------------------------
  // SchemaParser
  // ---------------------------------------------------------------------

  /** The parser object: the raw schemas and the ref prefix it was built
      with, and the memo tables its methods fill. */
  class SchemaParser {
    const raw: seq<Member>
    const baseName: string
    var schemas: map<string, Schema>
    var order: seq<string>
    var models: set<string>

    function Document(): Doc
    {
      Doc(raw, baseName)
    }

    function State(): ParserState
      reads this
    {
      ParserState(schemas, order, models)
    }

    /** The tables start empty; `base_name` defaults to
        "#/components/schemas/" in the source. */
    constructor(raw: seq<Member>, baseName: string)
      ensures this.raw == raw && this.baseName == baseName
      ensures State() == ParserState(map[], [], {}) && CacheInv(State())
    {
      this.raw := raw;
      this.baseName := baseName;
      schemas := map[];
      order := [];
      models := {};
    }

    method GetRef(ref: string) returns (r: Result<Schema>)
      modifies this
      ensures Step(r, State()) == ResolveRef(Document(), old(State()), {}, ref)
    {
      var s := ResolveRef(Document(), State(), {}, ref);
      schemas, order, models := s.st.schemas, s.st.order, s.st.models;
      r := s.res;
    }

    method ProcessSchema(name: string, data: Json) returns (r: Result<Schema>)
      modifies this
      ensures Step(r, State()) == ProcessFragment(Document(), old(State()), {}, name, data)
    {
      var s := ProcessFragment(Document(), State(), {}, name, data);
      schemas, order, models := s.st.schemas, s.st.order, s.st.models;
      r := s.res;
    }

    method Parse() returns (r: Result<()>)
      modifies this
      ensures Step(r, State()) == ParseAll(Document(), old(State()))
    {
      if |schemas| > 0 {
        return Ok(());
      }
      var s := ResolveAll(Document(), State(), Keys(raw));
      schemas, order, models := s.st.schemas, s.st.order, s.st.models;
      r := s.res;
    }

    /** The text `print` writes, or the error it raises. */
    method Print() returns (r: Result<string>)
      ensures r.Ok? <==> PrintUpTo(State(), |order|).Ok?
      ensures r.Ok? ==> r.value == PrintUpTo(State(), |order|).value.out
    {
      var st := State();
      var p := Printed("", {}, []);
      var k := 0;
      while k < |st.order|
        invariant 0 <= k <= |st.order|
        invariant PrintUpTo(st, k) == Ok(p)
      {
        var ref := st.order[k];
        if ref !in st.schemas {
          PrintErrorSticks(st, k + 1, |st.order|);
          return Err(AttributeError("enums"));
        }
        p := PrintSchema(p, st.schemas[ref]);
        k := k + 1;
      }
      r := Ok(p.out);
    }
  }
}
