/** The client generator: one decorated method per OpenAPI operation, the
    exception classes its error responses map to, and the ApiClient class
    that collects them. */
module CliGen {
  import opened Strings
  import opened Exceptions
  import opened Json
  import opened CaseConversion
  import opened Templates
  import opened Schemas

  // ---------------------------------------------------------------------
  // LimaExceptionGenerator
  // ---------------------------------------------------------------------

  /** An exception class to generate: its camel-cased name, the response
      description it carries as `detail`, and its model type text. */
  datatype ExceptionGen = ExceptionGen(name: string, details: Json, model: string)

  /** `LimaExceptionGenerator(name, details, model)`: the name is camel-cased,
      which fails on an empty segment. */
  function NewExceptionGen(name: string, details: Json, model: string): (r: Result<ExceptionGen>)
    ensures r.Ok? <==> SnakeToCamel(name).Ok?
    ensures r.Ok? ==> r.value == ExceptionGen(SnakeToCamel(name).value, details, model)
  {
    match SnakeToCamel(name)
    case Err(e) => Err(e)
    case Ok(n) => Ok(ExceptionGen(n, details, model))
  }

  /** `str(LimaExceptionGenerator)`: a LimaException subclass whose `detail`
      is the description and, when there is a model type, a `model` line. */
  function ExceptionText(e: ExceptionGen): (r: string)
    ensures |r| > 0 && r[0] == '\n'
  {
    var methods := if e.model != "" then "    model = " + e.model else "";
    BaseClass(e.name, "lima_api.LimaException", "    detail: str = \"" + PyStr(e.details) + "\"", methods)
  }

  /** `set.add` for values equal when their texts are. */
  function AddException(xs: seq<ExceptionGen>, e: ExceptionGen): (r: seq<ExceptionGen>)
    ensures forall x | x in xs :: x in r
    ensures exists x | x in r :: ExceptionText(x) == ExceptionText(e)
    ensures (exists x | x in xs :: ExceptionText(x) == ExceptionText(e)) ==> r == xs
  {
    if exists x | x in xs :: ExceptionText(x) == ExceptionText(e) then xs
    else
      assert (xs + [e])[|xs|] == e;
      xs + [e]
  }

  function AddSchema(xs: seq<Schema>, s: Schema): (r: seq<Schema>)
    ensures forall x | x in xs :: x in r
    ensures exists x | x in r :: x.text == s.text
    ensures (exists x | x in xs :: x.text == s.text) ==> r == xs
  {
    if exists x | x in xs :: x.text == s.text then xs
    else
      assert (xs + [s])[|xs|] == s;
      xs + [s]
  }

  /** No two elements of a list have the same text. */
  predicate TextsDistinct(xs: seq<ExceptionGen>)
  {
    forall i, j :: 0 <= i < j < |xs| ==> ExceptionText(xs[i]) != ExceptionText(xs[j])
  }

  lemma AddExceptionDistinct(xs: seq<ExceptionGen>, e: ExceptionGen)
    requires TextsDistinct(xs)
    ensures TextsDistinct(AddException(xs, e))
  {
    if !exists x | x in xs :: ExceptionText(x) == ExceptionText(e) {
      var r := xs + [e];
      forall i, j | 0 <= i < j < |r| ensures ExceptionText(r[i]) != ExceptionText(r[j]) {
        if j == |xs| {
          assert r[i] in xs;
        }
      }
    }
  }

  // ---------------------------------------------------------------------
  // Exception names
  // ---------------------------------------------------------------------

  /** What `^[0-9]+` matches at the start. */
  function LeadingDigits(s: string): (r: string)
    ensures r <= s && AllDigits(r)
    ensures |r| < |s| ==> !IsDigit(s[|r|])
  {
    if |s| > 0 && IsDigit(s[0]) then [s[0]] + LeadingDigits(s[1..]) else ""
  }

  /** Leading digits are moved to the end. */
  function MoveDigits(s: string): (r: string)
    ensures |r| == |s|
    ensures multiset(r) == multiset(s)
  {
    var d := LeadingDigits(s);
    assert s == d + s[|d|..];
    s[|d|..] + d
  }

  /** A name with anything but digits in it no longer starts with a digit. */
  lemma MoveDigitsNoLeadingDigit(s: string)
    requires exists i :: 0 <= i < |s| && !IsDigit(s[i])
    ensures |MoveDigits(s)| > 0 && !IsDigit(MoveDigits(s)[0])
  {
    var d := LeadingDigits(s);
    assert MoveDigits(s)[0] == s[|d|];
  }

  predicate MentionsError(s: string)
  {
    var low := LowerStr(s);
    Contains(low, "error") || Contains(low, "invalid") || Contains(low, "exception")
  }

  /** "Error" is appended unless the lower-cased name already mentions an
      error, "invalid" or an exception. */
  function WithErrorSuffix(s: string): (r: string)
    ensures MentionsError(s) ==> r == s
    ensures !MentionsError(s) ==> r == s + "Error"
  {
    if MentionsError(s) then s else s + "Error"
  }

  lemma LowerAppend(a: string, b: string)
    ensures LowerStr(a + b) == LowerStr(a) + LowerStr(b)
  {
    var l, la, lb := LowerStr(a + b), LowerStr(a), LowerStr(b);
    forall i | 0 <= i < |l| ensures l[i] == (la + lb)[i] {
      if i < |a| {
        assert (a + b)[i] == a[i];
      } else {
        assert (a + b)[i] == b[i - |a|];
      }
    }
    assert l == la + lb;
  }

  /** Every suffixed name mentions an error. */
  lemma WithErrorSuffixMentions(s: string)
    ensures MentionsError(WithErrorSuffix(s))
  {
    if !MentionsError(s) {
      LowerAppend(s, "Error");
      assert LowerStr("Error") == "error";
      var low := LowerStr(s + "Error");
      assert low[|s|..|s| + 5] == "error";
      ContainsWitness(low, "error", |s|);
    }
  }

  /** The name before camel-casing: the model type, unless that is None (or
      dict or list, already turned into None), names a model of the
      function, or is a generic with "["; then the description. Python can
      only go on with a string. */
  function ExceptionBaseName(modelType: string, details: Json, models: set<string>): (r: Result<string>)
    ensures modelType != "None" && modelType !in models && '[' !in modelType ==>
              r == Ok(WithErrorSuffix(MoveDigits(modelType)))
    ensures (modelType == "None" || modelType in models) && details.JStr? && '[' !in details.s ==>
              r == Ok(WithErrorSuffix(MoveDigits(details.s)))
    ensures (modelType == "None" || modelType in models) && !details.JStr? ==> r.Err?
  {
    var candidate := if modelType != "None" then JStr(modelType) else details;
    var named := if candidate.JStr? && candidate.s in models then details else candidate;
    if named.JArr? || named.JObj? then Err(TypeError("expected string or bytes-like object"))
    else if !named.JStr? then Err(NotIterable(named))
    else
      var plain := if '[' in named.s then details else named;
      if !plain.JStr? then Err(TypeError("expected string or bytes-like object"))
      else Ok(WithErrorSuffix(MoveDigits(plain.s)))
  }

  /** A base name always mentions an error before it is camel-cased. */
  lemma ExceptionBaseNameMentionsError(modelType: string, details: Json, models: set<string>)
    requires ExceptionBaseName(modelType, details, models).Ok?
    ensures var n := ExceptionBaseName(modelType, details, models).value;
            exists s :: n == WithErrorSuffix(s) && MentionsError(n)
  {
    var candidate := if modelType != "None" then JStr(modelType) else details;
    var named := if candidate.JStr? && candidate.s in models then details else candidate;
    var plain := if '[' in named.s then details else named;
    WithErrorSuffixMentions(MoveDigits(plain.s));
  }

  // ---------------------------------------------------------------------
  // LimaFunction.name
  // ---------------------------------------------------------------------

  /** `LimaFunction.name`: the snake-cased operationId, else the lower-cased
      method and the snake-cased path. */
  function FunctionName(verb: string, path: string, spec: Json): (r: Result<string>)
    ensures !Has(spec, "operationId") ==> r == Ok(verb + "_" + CamelToSnake(path))
    ensures Has(spec, "operationId") ==>
              (r.Ok? <==> Get(spec, "operationId").value.JStr?)
              && (r.Ok? ==> r.value == CamelToSnake(Get(spec, "operationId").value.s))
  {
    if Has(spec, "operationId") then
      var op := Get(spec, "operationId").value;
      if op.JStr? then Ok(CamelToSnake(op.s)) else Err(AttributeError("replace"))
    else Ok(verb + "_" + CamelToSnake(path))
  }

  /** An operationId gives a snake-shaped name; otherwise the name is the
      method, "_", and the snake-shaped path. */
  lemma FunctionNameShape(verb: string, path: string, spec: Json)
    requires FunctionName(verb, path, spec).Ok?
    ensures var r := FunctionName(verb, path, spec).value;
            (Has(spec, "operationId") ==> SnakeShaped(r))
            && (!Has(spec, "operationId") ==> verb + "_" <= r && SnakeShaped(r[|verb| + 1..]))
  {
    var r := FunctionName(verb, path, spec).value;
    if Has(spec, "operationId") {
      CamelToSnakeShape(Get(spec, "operationId").value.s);
    } else {
      CamelToSnakeShape(path);
      assert r[|verb| + 1..] == CamelToSnake(path);
    }
  }

  // ---------------------------------------------------------------------
  // LimaFunction.default_response_code
  // ---------------------------------------------------------------------

  /** `str.isnumeric()` on ASCII text. */
  predicate IsNumeric(s: string)
  {
    |s| > 0 && AllDigits(s)
  }

  /** The numeric response keys, as integers, in document order. */
  function NumericCodes(members: seq<Member>): (r: seq<int>)
    ensures forall c | c in r :: c >= 0
  {
    if |members| == 0 then []
    else
      var k := members[0].key;
      (if IsNumeric(k) then [DigitsValue(k) as int] else []) + NumericCodes(members[1..])
  }

  /** The responses of an operation: its `responses` dict (empty when absent
      or not a dict). */
  function Responses(spec: Json): seq<Member>
  {
    var r := GetOr(spec, "responses", JObj([]));
    if r.JObj? then r.members else []
  }

  function MinOf(xs: seq<int>): (m: int)
    requires |xs| > 0
    ensures m in xs && forall x | x in xs :: m <= x
  {
    if |xs| == 1 then xs[0]
    else
      var t := MinOf(xs[1..]);
      assert forall x | x in xs :: x == xs[0] || x in xs[1..];
      if xs[0] <= t then xs[0] else t
  }

  /** The listed codes in the 2xx and 3xx range, in document order. */
  function SuccessCodes(codes: seq<int>): (r: seq<int>)
    ensures forall c :: c in r <==> c in codes && 200 <= c < 400
  {
    if |codes| == 0 then []
    else (if 200 <= codes[0] < 400 then [codes[0]] else []) + SuccessCodes(codes[1..])
  }

  /** The success status as `default_response_code` computes it: 200 without
      numeric codes, the only code when there is one, 200 when listed, else
      the first code in ascending order that passes `200 >= status < 400`,
      a test that holds exactly for the codes at most 200, so the least code
      when that is at most 200, else the first code listed. */
  function DefaultCodeAsWritten(codes: seq<int>): (r: int)
    ensures |codes| == 0 ==> r == 200
    ensures |codes| == 1 ==> r == codes[0]
    ensures |codes| > 1 && 200 in codes ==> r == 200
    ensures |codes| > 1 && 200 !in codes && MinOf(codes) <= 200 ==> r == MinOf(codes)
    ensures |codes| > 1 && 200 !in codes && MinOf(codes) > 200 ==> r == codes[0]
  {
    if |codes| == 0 then 200
    else if |codes| == 1 then codes[0]
    else if 200 in codes then 200
    else if MinOf(codes) <= 200 then MinOf(codes)
    else codes[0]
  }

  /** With an unlisted 200, a listed 201 and a 404 listed first, the test
      as written finds no code and falls back to the 404; the range test
      finds the 201. */
  lemma SuccessTestMisread()
    ensures DefaultCodeAsWritten([404, 201]) == 404
    ensures DefaultCode([404, 201]) == 201
  {
    assert [404, 201][1..] == [201];
    assert SuccessCodes([201]) == [201] by { assert [201][1..] == []; }
    assert SuccessCodes([404, 201]) == [201];
  }

  /** The success status with the range test `200 <= status < 400`: 200
      without numeric codes, the only code when there is one, 200 when
      listed, else the least listed 2xx or 3xx code, else the first code
      listed. */
  function DefaultCode(codes: seq<int>): (r: int)
    ensures |codes| == 0 ==> r == 200
    ensures |codes| == 1 ==> r == codes[0]
    ensures |codes| > 1 && 200 in codes ==> r == 200
    ensures |codes| > 1 && 200 !in codes && |SuccessCodes(codes)| > 0 ==> r == MinOf(SuccessCodes(codes))
    ensures |codes| > 1 && |SuccessCodes(codes)| == 0 ==> r == codes[0]
  {
    if |codes| == 0 then 200
    else if |codes| == 1 then codes[0]
    else if 200 in codes then 200
    else if |SuccessCodes(codes)| > 0 then MinOf(SuccessCodes(codes))
    else codes[0]
  }

  /** The success status is 200 or a listed code; when several codes are
      listed and one of them is a 2xx or 3xx code, it is the least such
      code. */
  lemma DefaultCodeIsSuccess(codes: seq<int>, c: int)
    requires |codes| > 1 && c in codes && 200 <= c < 400
    ensures DefaultCode(codes) in codes
    ensures 200 <= DefaultCode(codes) <= c
  {
    assert c in SuccessCodes(codes);
    if 200 !in codes {
      assert MinOf(SuccessCodes(codes)) in SuccessCodes(codes);
    }
  }

  /** The success status is 200 or one of the listed codes. */
  lemma DefaultCodeIsListed(codes: seq<int>)
    ensures DefaultCode(codes) == 200 || DefaultCode(codes) in codes
  {
    if |codes| > 1 && 200 !in codes && |SuccessCodes(codes)| > 0 {
      assert MinOf(SuccessCodes(codes)) in SuccessCodes(codes);
    }
  }

  /** The scan of `sorted(codes)` for the first 2xx or 3xx code: it finds
      the least one. */
  method FirstSuccess(codes: seq<int>) returns (found: Option<int>)
    ensures |SuccessCodes(codes)| > 0 ==> found == Some(MinOf(SuccessCodes(codes)))
    ensures |SuccessCodes(codes)| == 0 ==> found.None?
  {
    found := None;
    var i := 0;
    while i < |codes|
      invariant 0 <= i <= |codes|
      invariant LeastSoFar(codes[..i], found)
    {
      LeastStep(codes, i, found);
      if 200 <= codes[i] < 400 && (found.None? || codes[i] < found.value) {
        found := Some(codes[i]);
      }
      i := i + 1;
    }
    assert codes[..i] == codes;
  }

  /** `found` is the least 2xx or 3xx code of `xs`, if it has one. */
  predicate LeastSoFar(xs: seq<int>, found: Option<int>)
  {
    && (|SuccessCodes(xs)| > 0 ==> found == Some(MinOf(SuccessCodes(xs))))
    && (|SuccessCodes(xs)| == 0 ==> found.None?)
  }

  lemma LeastStep(xs: seq<int>, i: nat, found: Option<int>)
    requires i < |xs| && LeastSoFar(xs[..i], found)
    ensures LeastSoFar(xs[..i + 1],
      if 200 <= xs[i] < 400 && (found.None? || xs[i] < found.value) then Some(xs[i]) else found)
  {
    SuccessCodesSnoc(xs, i);
    var a := SuccessCodes(xs[..i]);
    if 200 <= xs[i] < 400 {
      MinOfAppend(a, xs[i]);
      assert SuccessCodes(xs[..i + 1]) == a + [xs[i]];
    } else {
      assert SuccessCodes(xs[..i + 1]) == a;
    }
  }

  lemma {:induction false} SuccessCodesAppend(a: seq<int>, b: seq<int>)
    ensures SuccessCodes(a + b) == SuccessCodes(a) + SuccessCodes(b)
  {
    if |a| > 0 {
      assert (a + b)[1..] == a[1..] + b;
      SuccessCodesAppend(a[1..], b);
    } else {
      assert a + b == b;
    }
  }

  lemma SuccessCodesSnoc(xs: seq<int>, i: nat)
    requires i < |xs|
    ensures SuccessCodes(xs[..i + 1]) == SuccessCodes(xs[..i]) + (if 200 <= xs[i] < 400 then [xs[i]] else [])
  {
    assert xs[..i + 1] == xs[..i] + [xs[i]];
    SuccessCodesAppend(xs[..i], [xs[i]]);
    assert [xs[i]][1..] == [];
  }

  /** The least element one element further. */
  lemma MinOfAppend(a: seq<int>, x: int)
    ensures |a| == 0 ==> MinOf(a + [x]) == x
    ensures |a| > 0 ==> MinOf(a + [x]) == if x < MinOf(a) then x else MinOf(a)
  {
    var b := a + [x];
    var m := MinOf(b);
    assert x in b;
    assert forall y | y in a :: y in b;
    if |a| > 0 && m != x {
      assert m in a by { assert m in b; }
    }
  }

  /** The numeric codes collected by the loop of `default_response_code`. */
  method CollectCodes(members: seq<Member>) returns (codes: seq<int>)
    ensures codes == NumericCodes(members)
  {
    codes := [];
    var i := |members|;
    while i > 0
      invariant 0 <= i <= |members|
      invariant codes == NumericCodes(members[i..])
    {
      i := i - 1;
      var k := members[i].key;
      assert members[i..][1..] == members[i + 1..];
      if IsNumeric(k) {
        codes := [DigitsValue(k) as int] + codes;
      }
    }
    assert members[0..] == members;
  }

  // ---------------------------------------------------------------------
  // The state a LimaFunction threads through its properties
  // ---------------------------------------------------------------------

  /** The shared parser tables, and the function's own `models`,
      `_embed_cls` and `_exceptions`. */
  datatype Gen = Gen(parser: ParserState, models: set<string>, embeds: seq<Schema>, exceptions: seq<ExceptionGen>)

  /** A result with the state afterwards (also after an exception). */
  datatype GStep<+T> = GStep(res: Result<T>, g: Gen)

  /** What every property of a LimaFunction does to that state: cached refs
      stay cached, `order` is only appended to, and the function's models,
      embedded classes and exceptions only grow. */
  predicate Extends(a: Gen, b: Gen)
  {
    (forall k | k in a.parser.schemas :: k in b.parser.schemas)
    && a.parser.order <= b.parser.order
    && a.models <= b.models && a.embeds <= b.embeds && a.exceptions <= b.exceptions
  }

  lemma ExtendsTrans(a: Gen, b: Gen, c: Gen)
    requires Extends(a, b) && Extends(b, c)
    ensures Extends(a, c)
  {
  }

  function WithParser(g: Gen, st: ParserState): (r: Gen)
    ensures r.models == g.models && r.embeds == g.embeds && r.exceptions == g.exceptions
  {
    g.(parser := st)
  }

  /** `OPENAPI_2_TYPE_MAPPING.get(t)`. */
  function TypeLookup(t: Json): Option<string>
  {
    if t.JStr? then MappedType(t.s) else None
  }

  // ---------------------------------------------------------------------
  // LimaFunction._get_type
  // ---------------------------------------------------------------------

  function ResponseOf(spec: Json, status: string): Option<Json>
  {
    Find(Responses(spec), status)
  }

  /** `_get_type(status)`: bytes for an unlisted status or an unknown media
      type, None without content, the JSON schema's type text, str for XML
      and plain text. */
  function GetTypeF(doc: Doc, spec: Json, status: string, g: Gen): (r: GStep<string>)
    ensures Extends(g, r.g) && Grows(doc, {}, g.parser, r.g.parser)
    ensures ResponseOf(spec, status).None? ==> r == GStep(Ok("bytes"), g)
    ensures var resp := ResponseOf(spec, status);
            resp.Some? && resp.value.JObj? && !Truthy(GetOr(resp.value, "content", JObj([]))) ==>
              r == GStep(Ok("None"), g)
    ensures var resp := ResponseOf(spec, status);
            resp.Some? && resp.value.JObj? ==>
              var content := GetOr(resp.value, "content", JObj([]));
              (Truthy(content) && content.JObj? && Has(content, "application/json") ==>
                 var media := Get(content, "application/json").value;
                 (media.JObj? && !Truthy(GetOr(media, "schema", JNull)) ==> r == GStep(Ok("dict"), g)))
    ensures var resp := ResponseOf(spec, status);
            resp.Some? && resp.value.JObj? ==>
              var content := GetOr(resp.value, "content", JObj([]));
              (Truthy(content) && content.JObj? && !Has(content, "application/json") ==>
                 r == GStep(Ok(if Has(content, "application/xml") || Has(content, "text/plain") then "str" else "bytes"), g))
  {
    match ResponseOf(spec, status)
    case None => GStep(Ok("bytes"), g)
    case Some(response) =>
      if !response.JObj? then GStep(Err(AttributeError("get")), g)
      else
        var content := GetOr(response, "content", JObj([]));
        if !Truthy(content) then GStep(Ok("None"), g)
        else if !Iterable(content) then GStep(Err(NotIterable(content)), g)
        else if In("application/json", content) then
          if !content.JObj? then GStep(Err(AttributeError("get")), g)
          else JsonType(doc, Get(content, "application/json").value, g)
        else if In("application/xml", content) || In("text/plain", content) then GStep(Ok("str"), g)
        else GStep(Ok("bytes"), g)
  }

  /** The type text of an application/json body. */
  function JsonType(doc: Doc, media: Json, g: Gen): (r: GStep<string>)
    ensures Extends(g, r.g) && Grows(doc, {}, g.parser, r.g.parser)
    ensures media.JObj? && !Truthy(GetOr(media, "schema", JNull)) ==> r == GStep(Ok("dict"), g)
  {
    if !media.JObj? then GStep(Err(AttributeError("get")), g)
    else
      var schema := GetOr(media, "schema", JNull);
      if !Truthy(schema) then GStep(Ok("dict"), g)
      else if !schema.JObj? then GStep(Err(NotADict(schema, ["anyOf"])), g)
      else if Has(schema, "anyOf") then
        var items := Get(schema, "anyOf").value;
        if !items.JArr? then GStep(Err(TypeError("anyOf is not a list")), g)
        else
          var u := AnyOfOptions(doc, items.items, [], g);
          match u.res
          case Err(e) => GStep(Err(e), u.g)
          case Ok(options) => GStep(Ok(UnionText(options)), u.g)
      else
        match Hashable(GetOr(schema, "type", JNull))
        case Err(e) => GStep(Err(e), g)
        case Ok(t) =>
          if TypeLookup(t).Some? then GStep(Ok(TypeLookup(t).value), g)
          else CandidateType(doc, schema, g)
  }

  /** A truthy schema that is a string reaches `schema.get` unless it
      holds "anyOf", and an `anyOf` member is tested with `in`. */
  lemma {:induction false} JsonTypeErrors(doc: Doc, g: Gen)
    ensures JsonType(doc, JObj([Member("schema", JStr("x"))]), g).res == Err(AttributeError("get"))
    ensures JsonType(doc, JObj([Member("schema", JStr("anyOf"))]), g).res
              == Err(TypeError("string indices must be integers, not 'str'"))
    ensures JsonType(doc, JObj([Member("schema", JInt(1))]), g).res
              == Err(TypeError("argument of type 'int' is not iterable"))
    ensures AnyOfOptions(doc, [JStr("x")], [], g).res == Ok(["dict"])
    ensures AnyOfOptions(doc, [JObj([Member("$ref", JArr([]))])], [], g).res == Err(TypeError("unhashable type"))
  {
    StringSchema(doc, g);
    AnyOfString(doc, g);
    IntSchema(doc, g);
    StringMember(doc, g);
    ListRefMember(doc, g);
  }

  lemma {:induction false} StringSchema(doc: Doc, g: Gen)
    ensures JsonType(doc, JObj([Member("schema", JStr("x"))]), g).res == Err(AttributeError("get"))
  {
    assert NotADict(JStr("x"), ["anyOf"]) == AttributeError("get");
  }

  lemma {:induction false} AnyOfString(doc: Doc, g: Gen)
    ensures JsonType(doc, JObj([Member("schema", JStr("anyOf"))]), g).res
              == Err(TypeError("string indices must be integers, not 'str'"))
  {
    assert OccursAt("anyOf", "anyOf", 0);
    assert NotADict(JStr("anyOf"), ["anyOf"]) == BadIndex(JStr("anyOf"));
  }

  lemma {:induction false} IntSchema(doc: Doc, g: Gen)
    ensures JsonType(doc, JObj([Member("schema", JInt(1))]), g).res
              == Err(TypeError("argument of type 'int' is not iterable"))
  {
    assert NotIterable(JInt(1)) == TypeError("argument of type 'int' is not iterable");
    assert NotADict(JInt(1), ["anyOf"]) == NotIterable(JInt(1));
  }

  lemma {:induction false} StringMember(doc: Doc, g: Gen)
    ensures AnyOfOptions(doc, [JStr("x")], [], g).res == Ok(["dict"])
  {
    var one := [JStr("x")];
    assert !In("$ref", one[0]) && one[1..] == [] && AddOption([], "dict") == ["dict"];
    assert AnyOfOptions(doc, one, [], g) == AnyOfOptions(doc, [], ["dict"], g);
  }

  lemma {:induction false} ListRefMember(doc: Doc, g: Gen)
    ensures AnyOfOptions(doc, [JObj([Member("$ref", JArr([]))])], [], g).res == Err(TypeError("unhashable type"))
  {
    var it := JObj([Member("$ref", JArr([]))]);
    assert In("$ref", it) && Get(it, "$ref") == Some(JArr([]));
  }

  /** The loop over `anyOf`: each `$ref` member contributes its schema's
      name (also to the models), anything else "dict"; a set, here kept in
      first-seen order. A string or list member is tested with `in` like a
      dict, and fails only when it holds "$ref". */
  function AnyOfOptions(doc: Doc, items: seq<Json>, options: seq<string>, g: Gen): (r: GStep<seq<string>>)
    requires Distinct(options)
    ensures Extends(g, r.g) && Grows(doc, {}, g.parser, r.g.parser)
    ensures r.res.Ok? ==> Distinct(r.res.value) && options <= r.res.value
    ensures r.res.Ok? ==> forall o | o in r.res.value :: o in options || o == "dict" || o in r.g.models
    decreases |items|
  {
    if |items| == 0 then GStep(Ok(options), g)
    else
      var it := items[0];
      if !Iterable(it) then GStep(Err(NotIterable(it)), g)
      else if !In("$ref", it) then AnyOfOptions(doc, items[1..], AddOption(options, "dict"), g)
      else if !it.JObj? then GStep(Err(BadIndex(it)), g)
      else
        match RefKey(Get(it, "$ref").value)
        case Err(e) => GStep(Err(e), g)
        case Ok(ref) =>
          var s := ResolveRef(doc, g.parser, {}, ref);
          match s.res
          case Err(e) => GStep(Err(e), WithParser(g, s.st))
          case Ok(obj) =>
            var g1 := Gen(s.st, g.models + {obj.name}, g.embeds, g.exceptions);
            var r := AnyOfOptions(doc, items[1..], AddOption(options, obj.name), g1);
            GrowsTrans(doc, {}, g.parser, g1.parser, r.g.parser);
            r
  }

  function AddOption(options: seq<string>, o: string): (r: seq<string>)
    requires Distinct(options)
    ensures Distinct(r) && options <= r
    ensures forall x :: x in r <==> x in options || x == o
  {
    if o in options then options else options + [o]
  }

  /** A schema that is neither a union nor a mapped type is processed; its
      class name is the type when it has one, an alias stands for its
      attribute text, and a nameless object is processed again under its
      camel-cased description and carried along as an embedded class. */
  function CandidateType(doc: Doc, schema: Json, g: Gen): (r: GStep<string>)
    ensures Extends(g, r.g) && Grows(doc, {}, g.parser, r.g.parser)
  {
    var p := ProcessFragment(doc, g.parser, {}, "", schema);
    var g1 := WithParser(g, p.st);
    match p.res
    case Err(e) => GStep(Err(e), g1)
    case Ok(c) =>
      if c.name != "" then GStep(Ok(c.name), g1.(models := g1.models + {c.name}))
      else if c.kind == Some(ALIAS) then GStep(Ok(c.attributes), g1.(models := g1.models + c.models))
      else if c.kind == Some(OBJECT) then
        var desc := GetOr(schema, "description", JStr(""));
        if !desc.JStr? then GStep(Err(AttributeError("replace")), g1)
        else
          match SnakeToCamel(desc.s)
          case Err(e) => GStep(Err(e), g1)
          case Ok(objName) =>
            var p2 := ProcessFragment(doc, g1.parser, {}, objName, schema);
            GrowsTrans(doc, {}, g.parser, p.st, p2.st);
            match p2.res
            case Err(e) => GStep(Err(e), WithParser(g1, p2.st))
            case Ok(c2) =>
              var embeds := if c2.name != "" then g1.embeds + [c2] else g1.embeds;
              GStep(Ok(if c2.name != "" then c2.name else "dict"), Gen(p2.st, g1.models, embeds, g1.exceptions))
      else GStep(Err(NotImplementedError("Unexpected")), g1)
  }

  /** The `anyOf` loop of `_get_type`. */
  method AnyOfLoop(doc: Doc, items: seq<Json>, g0: Gen) returns (r: GStep<seq<string>>)
    ensures r == AnyOfOptions(doc, items, [], g0)
  {
    var options: seq<string> := [];
    var g := g0;
    var i := 0;
    while i < |items|
      invariant 0 <= i <= |items| && Distinct(options)
      invariant AnyOfOptions(doc, items[i..], options, g) == AnyOfOptions(doc, items, [], g0)
    {
      var it := items[i];
      assert items[i..][0] == it && items[i..][1..] == items[i + 1..];
      if !Iterable(it) {
        return GStep(Err(NotIterable(it)), g);
      }
      if In("$ref", it) {
        if !it.JObj? {
          return GStep(Err(BadIndex(it)), g);
        }
        var key := RefKey(Get(it, "$ref").value);
        if key.Err? {
          return GStep(Err(key.error), g);
        }
        var s := ResolveRef(doc, g.parser, {}, key.value);
        if s.res.Err? {
          return GStep(Err(s.res.error), WithParser(g, s.st));
        }
        var name := s.res.value.name;
        var g1 := Gen(s.st, g.models + {name}, g.embeds, g.exceptions);
        assert AnyOfOptions(doc, items[i..], options, g) == AnyOfOptions(doc, items[i + 1..], AddOption(options, name), g1);
        options := AddOption(options, name);
        g := g1;
      } else {
        assert AnyOfOptions(doc, items[i..], options, g) == AnyOfOptions(doc, items[i + 1..], AddOption(options, "dict"), g);
        options := AddOption(options, "dict");
      }
      i := i + 1;
    }
    r := GStep(Ok(options), g);
  }

  /** `_get_type`, with its `anyOf` loop. */
  method GetTypeM(doc: Doc, spec: Json, status: string, g: Gen) returns (r: GStep<string>)
    ensures r == GetTypeF(doc, spec, status, g)
  {
    var response := ResponseOf(spec, status);
    if response.None? {
      return GStep(Ok("bytes"), g);
    }
    var resp := response.value;
    if !resp.JObj? {
      return GStep(Err(AttributeError("get")), g);
    }
    var content := GetOr(resp, "content", JObj([]));
    if !Truthy(content) {
      return GStep(Ok("None"), g);
    }
    if !Iterable(content) {
      return GStep(Err(NotIterable(content)), g);
    }
    if !In("application/json", content) {
      r := GStep(Ok(if In("application/xml", content) || In("text/plain", content) then "str" else "bytes"), g);
      return;
    }
    if !content.JObj? {
      return GStep(Err(AttributeError("get")), g);
    }
    var media := Get(content, "application/json").value;
    if !media.JObj? {
      return GStep(Err(AttributeError("get")), g);
    }
    var schema := GetOr(media, "schema", JNull);
    if Truthy(schema) && schema.JObj? && Has(schema, "anyOf") && Get(schema, "anyOf").value.JArr? {
      var u := AnyOfLoop(doc, Get(schema, "anyOf").value.items, g);
      r := if u.res.Ok? then GStep(Ok(UnionText(u.res.value)), u.g) else GStep(Err(u.res.error), u.g);
    } else {
      r := JsonType(doc, media, g);
    }
  }

  // ---------------------------------------------------------------------
  // LimaFunction.params
  // ---------------------------------------------------------------------

  /** A SchemaObject handed back from the cache is the cached object itself:
      renaming it renames the cached entry. */
  function Rename(st: ParserState, origin: Option<string>, obj: Schema, name: string): (r: ParserState)
    ensures r.order == st.order && r.models == st.models
    ensures r.schemas.Keys == st.schemas.Keys + (if origin.Some? then {origin.value} else {})
  {
    if origin.Some? then st.(schemas := st.schemas[origin.value := obj.(name := name)]) else st
  }

  /** The type text of the request body: a union's own text, an alias's
      attribute text, "dict" for a nameless object, else the class name. */
  function BodyType(obj: Schema): (r: string)
    ensures obj.kind == Some(UNION) ==> r == obj.text
    ensures obj.kind == Some(ALIAS) ==> r == obj.attributes
    ensures obj.kind != Some(UNION) && obj.kind != Some(ALIAS) ==> r == (if obj.name == "" then "dict" else obj.name)
  {
    if obj.kind == Some(UNION) then obj.text
    else if obj.kind == Some(ALIAS) then obj.attributes
    else if obj.name == "" then "dict"
    else obj.name
  }

  function BodyModels(obj: Schema): set<string>
  {
    if obj.kind == Some(UNION) || obj.kind == Some(ALIAS) then obj.models
    else if obj.name == "" then {}
    else {obj.name}
  }

  /** The application/json request body, `{}` when absent or falsy. */
  function BodyContent(spec: Json): (r: Result<Json>)
    ensures r.Ok? && Truthy(r.value) ==> r.value == GetOr(GetOr(GetOr(spec, "requestBody", JObj([])), "content", JObj([])), "application/json", JNull)
  {
    var requestBody := GetOr(spec, "requestBody", JObj([]));
    if !requestBody.JObj? then Err(AttributeError("get"))
    else
      var content := GetOr(requestBody, "content", JObj([]));
      if !content.JObj? then Err(AttributeError("get"))
      else
        var media := GetOr(content, "application/json", JNull);
        Ok(if Truthy(media) then media else JObj([]))
  }

  /** The `body` parameter line, "" without a JSON request body. */
  function BodyParam(doc: Doc, spec: Json, g: Gen): (r: GStep<string>)
    ensures Extends(g, r.g)
    ensures BodyContent(spec) == Ok(JObj([])) ==> r == GStep(Ok(""), g)
    ensures r.res.Ok? && r.res.value != "" ==>
              exists t :: r.res.value == BaseParam("body", t, "lima_api.BodyParameter", "")
  {
    match BodyContent(spec)
    case Err(e) => GStep(Err(e), g)
    case Ok(content) =>
      if !Truthy(content) then GStep(Ok(""), g)
      else if !content.JObj? then GStep(Err(AttributeError("get")), g)
      else
        var schema := GetOr(content, "schema", JNull);
        var p := ProcessFragment(doc, g.parser, {}, "", schema);
        match p.res
        case Err(e) => GStep(Err(e), WithParser(g, p.st))
        case Ok(obj) =>
          var name := BodyType(obj);
          var parser := Rename(p.st, Origin(schema), obj, name);
          GStep(Ok(BaseParam("body", name, "lima_api.BodyParameter", "")),
                Gen(parser, g.models + BodyModels(obj), g.embeds, g.exceptions))
  }

  /** `PARAM_MAPPING.get(location)`: cookies and anything else have no field. */
  function ParamField(location: Json): (r: Option<string>)
    ensures r.Some? <==> location in {JStr("path"), JStr("query"), JStr("header")}
  {
    match location
    case JStr(s) =>
      if s == "path" then Some("lima_api.PathParameter")
      else if s == "query" then Some("lima_api.QueryParameter")
      else if s == "header" then Some("lima_api.HeaderParameter")
      else None
    case _ => None
  }

  /** The keyword arguments of a parameter's field: its original name when
      snake-casing changes it, and its default when that is truthy. */
  function ParamKwargs(alias: string, default: Json): (r: seq<string>)
    ensures (exists k | k in r :: "alias=" <= k) <==> CamelToSnake(alias) != alias
    ensures (exists k | k in r :: "default=" <= k) <==> Truthy(default)
    ensures CamelToSnake(alias) != alias ==> "alias=\"" + alias + "\"" in r
    ensures Truthy(default) ==> "default=" + PyStr(default) in r
  {
    var a := if CamelToSnake(alias) != alias then ["alias=\"" + alias + "\""] else [];
    var d := if Truthy(default) then ["default=" + PyStr(default)] else [];
    assert forall k | k in a + d :: (k in a && k[0] == 'a') || (k in d && k[0] == 'd');
    assert CamelToSnake(alias) != alias ==> a[0] in a + d && "alias=" <= a[0];
    assert Truthy(default) ==> d[0] in a + d && "default=" <= d[0];
    a + d
  }

  /** One entry of `parameters`: "" when its location has no field. */
  function ParamLine(doc: Doc, param: Json, g: Gen): (r: GStep<string>)
    ensures Extends(g, r.g)
    ensures var location := GetOr(param, "in", JNull);
            (param.JObj? && !location.JArr? && !location.JObj? && ParamField(location).None?) ==> r == GStep(Ok(""), g)
  {
    if !param.JObj? then GStep(Err(AttributeError("get")), g)
    else
      match Hashable(GetOr(param, "in", JNull))
      case Err(e) => GStep(Err(e), g)
      case Ok(location) =>
        match ParamField(location)
        case None => GStep(Ok(""), g)
        case Some(field) =>
          var schema := GetOr(param, "schema", JObj([]));
          if !schema.JObj? then GStep(Err(AttributeError("get")), g)
          else
            match Hashable(GetOr(schema, "type", JNull))
            case Err(e) => GStep(Err(e), g)
            case Ok(t) =>
              var typed := ParamType(doc, schema, TypeLookup(t), g);
              match typed.res
              case Err(e) => GStep(Err(e), typed.g)
              case Ok(paramType) =>
                var alias := GetOr(param, "name", JNull);
                if !alias.JStr? then GStep(Err(AttributeError("replace")), typed.g)
                else
                  var kwargs := ParamKwargs(alias.s, GetOr(param, "default", JNull));
                  GStep(Ok(BaseParam(CamelToSnake(alias.s), paramType, field, Join(kwargs, ", "))), typed.g)
  }

  /** A parameter's type text: a union is processed (and always truthy),
      otherwise the mapped type, which must exist. */
  function ParamType(doc: Doc, schema: Json, mapped: Option<string>, g: Gen): (r: GStep<string>)
    ensures Extends(g, r.g)
    ensures !Has(schema, "anyOf") ==> r == GStep(if mapped.Some? then Ok(mapped.value) else Err(NotImplementedError("Invalid type for parameter")), g)
  {
    if Has(schema, "anyOf") then
      var p := ProcessFragment(doc, g.parser, {}, "", schema);
      match p.res
      case Err(e) => GStep(Err(e), WithParser(g, p.st))
      case Ok(obj) => GStep(Ok(obj.text), Gen(p.st, g.models + obj.models, g.embeds, g.exceptions))
    else if mapped.None? then GStep(Err(NotImplementedError("Invalid type for parameter")), g)
    else GStep(Ok(mapped.value), g)
  }

  /** The loop over `parameters`, appending each line to `acc`. */
  function ParamsFrom(doc: Doc, params: seq<Json>, acc: string, g: Gen): (r: GStep<string>)
    ensures Extends(g, r.g)
    ensures r.res.Ok? ==> acc <= r.res.value
    decreases |params|
  {
    if |params| == 0 then GStep(Ok(acc), g)
    else
      var l := ParamLine(doc, params[0], g);
      match l.res
      case Err(e) => GStep(Err(e), l.g)
      case Ok(line) =>
        var r := ParamsFrom(doc, params[1..], acc + line, l.g);
        ExtendsTrans(g, l.g, r.g);
        r
  }

  /** `params`: the body parameter first, then one line per located
      parameter, the whole prefixed with "*," when there is any. */
  function ParamsF(doc: Doc, spec: Json, g: Gen): (r: GStep<string>)
    ensures Extends(g, r.g)
    ensures r.res.Ok? ==> r.res.value == "" || ("*," <= r.res.value && |r.res.value| > 2)
    ensures var b := BodyParam(doc, spec, g);
            r.res.Ok? && b.res.Ok? && b.res.value != "" ==> "*," + b.res.value <= r.res.value
  {
    var b := BodyParam(doc, spec, g);
    match b.res
    case Err(e) => GStep(Err(e), b.g)
    case Ok(body) =>
      var ps := GetOr(spec, "parameters", JArr([]));
      if !ps.JArr? then GStep(Err(TypeError("parameters is not a list")), b.g)
      else
        var p := ParamsFrom(doc, ps.items, body, b.g);
        ExtendsTrans(g, b.g, p.g);
        match p.res
        case Err(e) => GStep(Err(e), p.g)
        case Ok(text) =>
          assert body <= text;
          GStep(Ok(if text != "" then "*," + text else text), p.g)
  }

  /** The loop of `params` over `parameters`. */
  method ParamsLoop(doc: Doc, params: seq<Json>, acc: string, g0: Gen) returns (r: GStep<string>)
    ensures r == ParamsFrom(doc, params, acc, g0)
  {
    var text := acc;
    var g := g0;
    var i := 0;
    while i < |params|
      invariant 0 <= i <= |params|
      invariant ParamsFrom(doc, params[i..], text, g) == ParamsFrom(doc, params, acc, g0)
    {
      assert params[i..][0] == params[i] && params[i..][1..] == params[i + 1..];
      var l := ParamLine(doc, params[i], g);
      if l.res.Err? {
        return GStep(Err(l.res.error), l.g);
      }
      text, g := text + l.res.value, l.g;
      i := i + 1;
    }
    r := GStep(Ok(text), g);
  }

  /** `params`: the body parameter, the loop, and the "*," prefix. */
  method ParamsM(doc: Doc, spec: Json, g0: Gen) returns (r: GStep<string>)
    ensures r == ParamsF(doc, spec, g0)
  {
    var b := BodyParam(doc, spec, g0);
    if b.res.Err? {
      return GStep(Err(b.res.error), b.g);
    }
    var ps := GetOr(spec, "parameters", JArr([]));
    if !ps.JArr? {
      return GStep(Err(TypeError("parameters is not a list")), b.g);
    }
    var p := ParamsLoop(doc, ps.items, b.res.value, b.g);
    if p.res.Err? {
      return p;
    }
    var text := p.res.value;
    r := GStep(Ok(if text != "" then "*," + text else text), p.g);
  }

  // ---------------------------------------------------------------------
  // LimaFunction.response_mapping
  // ---------------------------------------------------------------------

  /** One `mapping[int_status] = exception` entry. */
  datatype Entry = Entry(code: int, exc: ExceptionGen)

  function Codes(m: seq<Entry>): (r: set<int>)
    ensures forall e | e in m :: e.code in r
  {
    if |m| == 0 then {} else {m[0].code} + Codes(m[1..])
  }

  /** No code is mapped twice. */
  predicate CodesDistinct(m: seq<Entry>)
  {
    |m| == 0 || (m[0].code !in Codes(m[1..]) && CodesDistinct(m[1..]))
  }

  /** A dict write: an existing key keeps its position and takes the new
      value, a new key goes last. */
  function Put(m: seq<Entry>, e: Entry): (r: seq<Entry>)
    requires CodesDistinct(m)
    ensures CodesDistinct(r) && Codes(r) == Codes(m) + {e.code}
    ensures e in r
    ensures forall x | x in m && x.code != e.code :: x in r
  {
    if |m| == 0 then [e]
    else if m[0].code == e.code then
      assert ([e] + m[1..])[1..] == m[1..];
      [e] + m[1..]
    else
      var t := Put(m[1..], e);
      assert ([m[0]] + t)[1..] == t;
      [m[0]] + t
  }

  /** The codes `int(status)` gives for the listed statuses other than
      "default". */
  function ListedCodes(members: seq<Member>): set<int>
  {
    set i | 0 <= i < |members| && members[i].key != "default" && ParseInt(members[i].key).Some? :: ParseInt(members[i].key).value
  }

  /** One status of the loop of `response_mapping`: "default" and the
      success code are skipped; any other status must be an integer and
      gets an exception named after its model type or description. */
  function MappingStep(doc: Doc, spec: Json, success: int, member: Member, m: seq<Entry>, g: Gen): (r: GStep<seq<Entry>>)
    requires CodesDistinct(m)
    ensures Extends(g, r.g)
    ensures member.key == "default" ==> r == GStep(Ok(m), g)
    ensures member.key != "default" && ParseInt(member.key).None? ==> r.res.Err?
    ensures member.key != "default" && ParseInt(member.key) == Some(success) ==> r == GStep(Ok(m), g)
    ensures r.res.Ok? ==> CodesDistinct(r.res.value)
    ensures r.res.Ok? ==> Codes(r.res.value) == Codes(m) + (if member.key == "default" || ParseInt(member.key) == Some(success) then {} else {ParseInt(member.key).value})
  {
    var status := member.key;
    if status == "default" then GStep(Ok(m), g)
    else
      match ParseInt(status)
      case None => GStep(Err(ValueError("invalid literal for int() with base 10: " + PyStrRepr(status))), g)
      case Some(code) =>
        if code == success then GStep(Ok(m), g)
        else if !member.value.JObj? then GStep(Err(AttributeError("get")), g)
        else
          var details := GetOr(member.value, "description", JNull);
          var t := GetTypeF(doc, spec, status, g);
          match t.res
          case Err(e) => GStep(Err(e), t.g)
          case Ok(ty) =>
            var modelType := if ty == "dict" || ty == "list" then "None" else ty;
            match ExceptionBaseName(modelType, details, t.g.models)
            case Err(e) => GStep(Err(e), t.g)
            case Ok(base) =>
              match NewExceptionGen(base, details, modelType)
              case Err(e) => GStep(Err(e), t.g)
              case Ok(ex) =>
                GStep(Ok(Put(m, Entry(code, ex))), t.g.(exceptions := t.g.exceptions + [ex]))
  }

  function MappingFrom(doc: Doc, spec: Json, success: int, members: seq<Member>, m: seq<Entry>, g: Gen): (r: GStep<seq<Entry>>)
    requires CodesDistinct(m)
    ensures Extends(g, r.g)
    ensures r.res.Ok? ==> CodesDistinct(r.res.value)
    ensures r.res.Ok? ==> Codes(r.res.value) == Codes(m) + (ListedCodes(members) - {success})
    decreases |members|
  {
    if |members| == 0 then GStep(Ok(m), g)
    else
      var s := MappingStep(doc, spec, success, members[0], m, g);
      match s.res
      case Err(e) => GStep(Err(e), s.g)
      case Ok(m1) =>
        var r := MappingFrom(doc, spec, success, members[1..], m1, s.g);
        ExtendsTrans(g, s.g, r.g);
        ListedCodesCons(members, success);
        r
  }

  lemma MappingFromUnfold(doc: Doc, spec: Json, success: int, members: seq<Member>, m: seq<Entry>, g: Gen)
    requires |members| > 0 && CodesDistinct(m)
    ensures var s := MappingStep(doc, spec, success, members[0], m, g);
      MappingFrom(doc, spec, success, members, m, g)
      == if s.res.Err? then GStep(Err(s.res.error), s.g) else MappingFrom(doc, spec, success, members[1..], s.res.value, s.g)
  {
  }

  lemma ListedCodesCons(members: seq<Member>, success: int)
    requires |members| > 0
    ensures var k := members[0].key;
            ListedCodes(members) - {success}
            == (if k == "default" || ParseInt(k).None? || ParseInt(k) == Some(success) then {} else {ParseInt(k).value})
               + (ListedCodes(members[1..]) - {success})
  {
    var k := members[0].key;
    var rest := members[1..];
    forall c | c in ListedCodes(members) ensures (k != "default" && ParseInt(k) == Some(c)) || c in ListedCodes(rest) {
      var i :| 0 <= i < |members| && members[i].key != "default" && ParseInt(members[i].key).Some? && ParseInt(members[i].key).value == c;
      if i > 0 {
        assert members[i] == rest[i - 1];
      }
    }
    forall c | c in ListedCodes(rest) ensures c in ListedCodes(members) {
      var i :| 0 <= i < |rest| && rest[i].key != "default" && ParseInt(rest[i].key).Some? && ParseInt(rest[i].key).value == c;
      assert members[i + 1] == rest[i];
    }
    if k != "default" && ParseInt(k).Some? {
      assert members[0].key == k;
      assert ParseInt(k).value in ListedCodes(members);
    }
  }

  /** `response_mapping`: one exception per integer status other than the
      success code, keyed by that integer; appends the exceptions to
      `_exceptions`. */
  function MappingF(doc: Doc, spec: Json, g: Gen): (r: GStep<seq<Entry>>)
    ensures Extends(g, r.g)
    ensures r.res.Ok? ==> CodesDistinct(r.res.value)
    ensures r.res.Ok? ==> Codes(r.res.value) == ListedCodes(Responses(spec)) - {DefaultCode(NumericCodes(Responses(spec)))}
  {
    MappingFrom(doc, spec, DefaultCode(NumericCodes(Responses(spec))), Responses(spec), [], g)
  }

  /** `response_mapping`, with its loop. */
  method MappingM(doc: Doc, spec: Json, success: int, g0: Gen) returns (r: GStep<seq<Entry>>)
    ensures r == MappingFrom(doc, spec, success, Responses(spec), [], g0)
  {
    var members := Responses(spec);
    var m: seq<Entry> := [];
    var g := g0;
    var i := 0;
    while i < |members|
      invariant 0 <= i <= |members| && CodesDistinct(m)
      invariant MappingFrom(doc, spec, success, members[i..], m, g) == MappingFrom(doc, spec, success, members, [], g0)
    {
      assert members[i..][0] == members[i] && members[i..][1..] == members[i + 1..];
      MappingFromUnfold(doc, spec, success, members[i..], m, g);
      var s := MappingStep(doc, spec, success, members[i], m, g);
      if s.res.Err? {
        return GStep(Err(s.res.error), s.g);
      }
      m, g := s.res.value, s.g;
      i := i + 1;
    }
    r := GStep(Ok(m), g);
  }

  // ---------------------------------------------------------------------
  // LimaFunction.__str__
  // ---------------------------------------------------------------------

  /** The entries of the `response_mapping=` literal. */
  function MappingItems(m: seq<Entry>): string
  {
    if |m| == 0 then "" else "\n            " + IntToString(m[0].code) + ": " + m[0].exc.name + "," + MappingItems(m[1..])
  }

  /** The `response_mapping=` literal: "{}" when the first evaluation of
      the mapping is empty, else the entries of its second evaluation. */
  function MappingLiteral(first: seq<Entry>, second: seq<Entry>): (r: string)
    ensures |first| == 0 ==> r == "{}"
    ensures |first| > 0 ==> "{" <= r && r[|r| - 1] == '}'
  {
    if |first| == 0 then "{}" else "{" + MappingItems(second) + "\n        }"
  }

  /** `__str__`: the function's text appended to what it rendered before.
      `response_mapping` is evaluated twice when the first result is not
      empty, and its entries come from the second evaluation. */
  function StrF(doc: Doc, verb: string, path: string, spec: Json, text: string, g: Gen): (r: GStep<string>)
    ensures Extends(g, r.g)
    ensures r.res.Ok? ==> text <= r.res.value && |r.res.value| > |text|
  {
    if !spec.JObj? then GStep(Err(AttributeError("get")), g)
    else
      var m1 := MappingF(doc, spec, g);
      match m1.res
      case Err(e) => GStep(Err(e), m1.g)
      case Ok(first) =>
        var r := StrSecond(doc, verb, path, spec, text, first, m1.g);
        ExtendsTrans(g, m1.g, r.g);
        r
  }

  /** The second evaluation of the mapping, then the rest of `__str__`. */
  function StrSecond(doc: Doc, verb: string, path: string, spec: Json, text: string, first: seq<Entry>, g: Gen): (r: GStep<string>)
    ensures Extends(g, r.g)
    ensures r.res.Ok? ==> text <= r.res.value && |r.res.value| > |text|
  {
    var m2 := if |first| > 0 then MappingF(doc, spec, g) else GStep(Ok([]), g);
    match m2.res
    case Err(e) => GStep(Err(e), m2.g)
    case Ok(second) =>
      var r := StrRender(doc, verb, path, spec, text, MappingLiteral(first, second), m2.g);
      ExtendsTrans(g, m2.g, r.g);
      r
  }

  /** The name, the parameters and the return type, in that order, and the
      LIMA_FUNCTION text they fill in. */
  function StrRender(doc: Doc, verb: string, path: string, spec: Json, text: string, literal: string, g: Gen): (r: GStep<string>)
    ensures Extends(g, r.g)
    ensures r.res.Ok? ==> text <= r.res.value && |r.res.value| > |text|
  {
    match FunctionName(verb, path, spec)
    case Err(e) => GStep(Err(e), g)
    case Ok(name) =>
      var p := ParamsF(doc, spec, g);
      match p.res
      case Err(e) => GStep(Err(e), p.g)
      case Ok(params) =>
        var code := IntToString(DefaultCode(NumericCodes(Responses(spec))));
        var t := GetTypeF(doc, spec, code, p.g);
        ExtendsTrans(g, p.g, t.g);
        match t.res
        case Err(e) => GStep(Err(e), t.g)
        case Ok(ret) =>
          var f := LimaFunctionText(verb, path, code, literal, "{}", "lima_api.LimaException", name, params, ret);
          GStep(Ok(text + f), t.g)
  }

  /** The mapping literal, with its loop. */
  method MappingLiteralM(first: seq<Entry>, second: seq<Entry>) returns (r: string)
    ensures r == MappingLiteral(first, second)
  {
    if |first| == 0 {
      return "{}";
    }
    var items := "";
    var i := |second|;
    while i > 0
      invariant 0 <= i <= |second|
      invariant items == MappingItems(second[i..])
    {
      i := i - 1;
      assert second[i..][1..] == second[i + 1..];
      items := "\n            " + IntToString(second[i].code) + ": " + second[i].exc.name + "," + items;
    }
    assert second[0..] == second;
    r := "{" + items + "\n        }";
  }

  // ---------------------------------------------------------------------
  // ClientGenerator.parse
  // ---------------------------------------------------------------------

  /** `set.update` for exceptions, equal when their texts are. */
  function AddExceptions(xs: seq<ExceptionGen>, more: seq<ExceptionGen>): (r: seq<ExceptionGen>)
    ensures TextsDistinct(xs) ==> TextsDistinct(r)
    ensures forall x | x in xs :: x in r
    ensures forall x | x in more :: exists y | y in r :: ExceptionText(y) == ExceptionText(x)
    decreases |more|
  {
    if |more| == 0 then xs
    else
      var xs1 := AddException(xs, more[0]);
      assert TextsDistinct(xs) ==> TextsDistinct(xs1) by {
        if TextsDistinct(xs) {
          AddExceptionDistinct(xs, more[0]);
        }
      }
      var r := AddExceptions(xs1, more[1..]);
      AddExceptionsCovers(xs1, more, r);
      r
  }

  lemma AddExceptionsCovers(xs1: seq<ExceptionGen>, more: seq<ExceptionGen>, r: seq<ExceptionGen>)
    requires |more| > 0
    requires exists x | x in xs1 :: ExceptionText(x) == ExceptionText(more[0])
    requires forall x | x in xs1 :: x in r
    requires forall x | x in more[1..] :: exists y | y in r :: ExceptionText(y) == ExceptionText(x)
    ensures forall x | x in more :: exists y | y in r :: ExceptionText(y) == ExceptionText(x)
  {
    var w :| w in xs1 && ExceptionText(w) == ExceptionText(more[0]);
    assert w in r;
    forall x | x in more ensures exists y | y in r :: ExceptionText(y) == ExceptionText(x) {
      if x != more[0] {
        assert x in more[1..];
      }
    }
  }

  /** No two embedded classes have the same text. */
  predicate SchemaTextsDistinct(xs: seq<Schema>)
  {
    forall i, j :: 0 <= i < j < |xs| ==> xs[i].text != xs[j].text
  }

  /** `set.update` for embedded classes, equal when their texts are. */
  function AddSchemas(xs: seq<Schema>, more: seq<Schema>): (r: seq<Schema>)
    ensures SchemaTextsDistinct(xs) ==> SchemaTextsDistinct(r)
    ensures forall x | x in xs :: x in r
    ensures forall x | x in more :: exists y | y in r :: y.text == x.text
    decreases |more|
  {
    if |more| == 0 then xs
    else
      var xs1 := AddSchema(xs, more[0]);
      assert SchemaTextsDistinct(xs) ==> SchemaTextsDistinct(xs1) by {
        if SchemaTextsDistinct(xs) && xs1 != xs {
          forall i, j | 0 <= i < j < |xs1| ensures xs1[i].text != xs1[j].text {
            if j == |xs| {
              assert xs1[i] in xs;
            }
          }
        }
      }
      var r := AddSchemas(xs1, more[1..]);
      assert forall x | x in more :: x == more[0] || x in more[1..];
      r
  }

  /** What `parse` has gathered: the parser tables, the client's models, the
      exception and embedded classes, and the methods' text. */
  datatype Client = Client(parser: ParserState, models: set<string>, exceptions: seq<ExceptionGen>,
                           embeds: seq<Schema>, methods: string)

  /** A step of `parse` and what it leaves behind (also after an exception). */
  datatype CStep = CStep(res: Result<()>, c: Client)

  /** Everything `parse` gathers only grows. */
  predicate ClientGrows(a: Client, b: Client)
  {
    a.parser.order <= b.parser.order && a.models <= b.models && a.methods <= b.methods
    && (forall x | x in a.exceptions :: x in b.exceptions) && (forall x | x in a.embeds :: x in b.embeds)
  }

  predicate ClientInv(c: Client)
  {
    TextsDistinct(c.exceptions) && SchemaTextsDistinct(c.embeds)
  }

  /** One operation: a fresh LimaFunction is rendered and its models,
      exceptions and embedded classes are merged into the client's. */
  function OperationStep(doc: Doc, path: string, op: Member, c: Client): (r: CStep)
    ensures ClientGrows(c, r.c)
    ensures ClientInv(c) ==> ClientInv(r.c)
  {
    var f := StrF(doc, LowerStr(op.key), path, op.value, "", Gen(c.parser, {}, [], []));
    match f.res
    case Err(e) => CStep(Err(e), c.(parser := f.g.parser))
    case Ok(text) =>
      CStep(Ok(()), Client(f.g.parser, c.models + f.g.models, AddExceptions(c.exceptions, f.g.exceptions),
                           AddSchemas(c.embeds, f.g.embeds), c.methods + text))
  }

  /** The loop over the operations of one path. */
  function OperationsFrom(doc: Doc, path: string, ops: seq<Member>, c: Client): (r: CStep)
    ensures ClientGrows(c, r.c)
    ensures ClientInv(c) ==> ClientInv(r.c)
    decreases |ops|
  {
    if |ops| == 0 then CStep(Ok(()), c)
    else
      var s := OperationStep(doc, path, ops[0], c);
      match s.res
      case Err(e) => s
      case Ok(_) => OperationsFrom(doc, path, ops[1..], s.c)
  }

  /** The loop over the paths; the operations of a path must be a dict. */
  function PathsFrom(doc: Doc, paths: seq<Member>, c: Client): (r: CStep)
    ensures ClientGrows(c, r.c)
    ensures ClientInv(c) ==> ClientInv(r.c)
    decreases |paths|
  {
    if |paths| == 0 then CStep(Ok(()), c)
    else
      var s := PathStep(doc, paths[0], c);
      match s.res
      case Err(e) => s
      case Ok(_) => PathsFrom(doc, paths[1..], s.c)
  }

  /** One path of `parse`: its operations, which must form a dict. */
  function PathStep(doc: Doc, p: Member, c: Client): (r: CStep)
    ensures ClientGrows(c, r.c)
    ensures ClientInv(c) ==> ClientInv(r.c)
    ensures !p.value.JObj? ==> r == CStep(Err(AttributeError("items")), c)
  {
    if !p.value.JObj? then CStep(Err(AttributeError("items")), c)
    else OperationsFrom(doc, p.key, p.value.members, c)
  }

  /** The paths from position `i` on, one path further. */
  lemma PathsFromNext(doc: Doc, paths: seq<Member>, i: nat, c: Client)
    requires i < |paths|
    ensures PathsFrom(doc, paths[i..], c)
            == var s := PathStep(doc, paths[i], c);
               if s.res.Err? then s else PathsFrom(doc, paths[i + 1..], s.c)
  {
    assert paths[i..][0] == paths[i] && paths[i..][1..] == paths[i + 1..];
  }

  /** `parse` from the client's models and the parser's tables. */
  function ClientParse(doc: Doc, st: ParserState, paths: Json, models: set<string>): (r: CStep)
    ensures r.res.Ok? ==> ClientInv(r.c)
    ensures st.order <= r.c.parser.order && models <= r.c.models
  {
    var c := Client(st, models, [], [], "");
    if !paths.JObj? then CStep(Err(AttributeError("items")), c)
    else PathsFrom(doc, paths.members, c)
  }

  function ExceptionTexts(xs: seq<ExceptionGen>): (r: seq<string>)
    ensures |r| == |xs| && forall i :: 0 <= i < |xs| ==> r[i] == ExceptionText(xs[i])
  {
    if |xs| == 0 then [] else [ExceptionText(xs[0])] + ExceptionTexts(xs[1..])
  }

  function ApiClientText(methods: string): string
  {
    BaseClass("ApiClient", "lima_api.SyncLimaApi", "    response_mapping = {}", methods)
  }

  /** The exception classes, one per line. */
  function ExceptionBlock(xs: seq<ExceptionGen>): string
  {
    Join(ExceptionTexts(xs), "\n") + (if |xs| > 0 then "\n" else "")
  }

  /** The embedded model classes, one per line. */
  function EmbedBlock(xs: seq<Schema>): string
  {
    Join(EmbedTexts(xs), "\n") + (if |xs| > 0 then "\n" else "")
  }

  /** What precedes the ApiClient class: the exception classes, then the
      embedded classes. */
  function ClientHead(c: Client): string
  {
    ExceptionBlock(c.exceptions) + EmbedBlock(c.embeds)
  }

  /** The generated client module. */
  function ClientText(c: Client): string
  {
    ClientHead(c) + ApiClientText(c.methods)
  }

  lemma {:induction false} JoinHasPart(parts: seq<string>, sep: string, i: nat)
    requires i < |parts|
    ensures exists k :: OccursAt(Join(parts, sep), parts[i], k)
  {
    var j := Join(parts, sep);
    if |parts| == 1 {
      assert OccursAt(j, parts[i], 0);
    } else if i == 0 {
      assert j[..|parts[0]|] == parts[0];
      assert OccursAt(j, parts[i], 0);
    } else {
      JoinHasPart(parts[1..], sep, i - 1);
      var rest := Join(parts[1..], sep);
      var k :| OccursAt(rest, parts[i], k);
      var off := |parts[0]| + |sep|;
      assert j == parts[0] + sep + rest;
      assert j[off + k..off + k + |parts[i]|] == rest[k..k + |parts[i]|];
      assert OccursAt(j, parts[i], off + k);
    }
  }

  lemma JoinContains(parts: seq<string>, sep: string, i: nat)
    requires i < |parts|
    ensures Contains(Join(parts, sep), parts[i])
  {
    JoinHasPart(parts, sep, i);
    var k :| OccursAt(Join(parts, sep), parts[i], k);
    ContainsWitness(Join(parts, sep), parts[i], k);
  }

  lemma ContainsConcat(a: string, b: string, pat: string)
    requires Contains(b, pat)
    ensures Contains(a + b, pat) && Contains(b + a, pat)
  {
    var k :| 0 <= k <= |b| - |pat| && OccursAt(b, pat, k);
    assert (a + b)[|a| + k..|a| + k + |pat|] == b[k..k + |pat|];
    assert (b + a)[k..k + |pat|] == b[k..k + |pat|];
    ContainsWitness(a + b, pat, |a| + k);
    ContainsWitness(b + a, pat, k);
  }

  lemma JoinedFirst(parts: seq<string>, i: nat, rest: string)
    requires i < |parts|
    ensures Contains(Join(parts, "\n") + rest, parts[i])
  {
    JoinContains(parts, "\n", i);
    ContainsConcat(rest, Join(parts, "\n"), parts[i]);
  }

  /** Every exception class is written out ahead of the ApiClient class. */
  lemma ExceptionBeforeClient(c: Client, i: nat)
    requires i < |c.exceptions|
    ensures Contains(ClientHead(c), ExceptionText(c.exceptions[i]))
  {
    var parts := ExceptionTexts(c.exceptions);
    JoinedFirst(parts, i, if |c.exceptions| > 0 then "\n" else "");
    ContainsConcat(EmbedBlock(c.embeds), ExceptionBlock(c.exceptions), parts[i]);
  }

  /** Every embedded class is written out ahead of the ApiClient class. */
  lemma EmbedBeforeClient(c: Client, i: nat)
    requires i < |c.embeds|
    ensures Contains(ClientHead(c), c.embeds[i].text)
  {
    var parts := EmbedTexts(c.embeds);
    JoinedFirst(parts, i, if |c.embeds| > 0 then "\n" else "");
    ContainsConcat(ExceptionBlock(c.exceptions), EmbedBlock(c.embeds), parts[i]);
  }

  lemma BaseClassEndsWithMethods(name: string, parent: string, attributes: string, methods: string)
    ensures var b := BaseClass(name, parent, attributes, methods);
            |methods| < |b| && b[|b| - |methods| - 1..|b| - 1] == methods
  {
    var h := "\nclass " + name + "(" + parent + "):\n" + attributes + "\n";
    assert BaseClass(name, parent, attributes, methods) == h + methods + "\n";
  }

  /** The ApiClient class, which ends the module, closes with every
      rendered method. */
  lemma ClientTextEndsWithApiClient(c: Client)
    ensures var t := ClientText(c);
            |c.methods| < |t| && t[|ClientHead(c)|..] == ApiClientText(c.methods)
            && t[|t| - |c.methods| - 1..|t| - 1] == c.methods
  {
    var t := ClientText(c);
    var api := ApiClientText(c.methods);
    BaseClassEndsWithMethods("ApiClient", "lima_api.SyncLimaApi", "    response_mapping = {}", c.methods);
    assert t == ClientHead(c) + api;
    assert t[|t| - |c.methods| - 1..|t| - 1] == api[|api| - |c.methods| - 1..|api| - 1];
  }

  // ---------------------------------------------------------------------
  // The generator objects
  // ---------------------------------------------------------------------

  /** One operation of the API. `client` is the generator that owns it and
      whose parser it processes schemas with. */
  class LimaFunction {
    const client: ClientGenerator
    const verb: string
    const path: string
    const spec: Json
    /** the memoised success status, 0 while unset (both None and 0 are
        falsy for the memo test) */
    var defaultStatus: int
    var text: string
    var exceptions: seq<ExceptionGen>
    var embedCls: seq<Schema>
    var models: set<string>

    function Document(): Doc
    {
      client.parser.Document()
    }

    function Snapshot(): Gen
      reads this, client.parser
    {
      Gen(client.parser.State(), models, embedCls, exceptions)
    }

    /** The memo can only hold the success status. */
    predicate Valid()
      reads this
    {
      defaultStatus == 0 || defaultStatus == DefaultCode(NumericCodes(Responses(spec)))
    }

    constructor(client: ClientGenerator, httpMethod: string, path: string, spec: Json)
      ensures this.client == client && verb == LowerStr(httpMethod) && this.path == path && this.spec == spec
      ensures defaultStatus == 0 && text == "" && exceptions == [] && embedCls == [] && models == {}
      ensures Valid()
    {
      this.client := client;
      verb := LowerStr(httpMethod);
      this.path := path;
      this.spec := spec;
      defaultStatus := 0;
      text := "";
      exceptions := [];
      embedCls := [];
      models := {};
    }

    /** `default_response_code`, computed on first use. */
    method DefaultResponseCode() returns (r: int)
      requires Valid()
      modifies this`defaultStatus
      ensures Valid() && r == DefaultCode(NumericCodes(Responses(spec)))
    {
      if defaultStatus == 0 {
        var codes := CollectCodes(Responses(spec));
        var d := 200;
        if |codes| == 1 {
          d := codes[0];
        } else if |codes| > 1 && 200 !in codes {
          var found := FirstSuccess(codes);
          d := if found.Some? then found.value else codes[0];
        }
        defaultStatus := d;
      }
      r := defaultStatus;
    }

    method Store(g: Gen)
      modifies this`models, this`embedCls, this`exceptions, client.parser
      ensures Snapshot() == g
    {
      client.parser.schemas, client.parser.order, client.parser.models := g.parser.schemas, g.parser.order, g.parser.models;
      models, embedCls, exceptions := g.models, g.embeds, g.exceptions;
    }

    /** `params` */
    method Params() returns (r: Result<string>)
      modifies this`models, this`embedCls, this`exceptions, client.parser
      ensures GStep(r, Snapshot()) == ParamsF(Document(), spec, old(Snapshot()))
    {
      var s := ParamsM(Document(), spec, Snapshot());
      Store(s.g);
      r := s.res;
    }

    /** `returned_type`: the type of the success status. */
    method ReturnedType() returns (r: Result<string>)
      requires Valid()
      modifies this
      modifies client.parser
      ensures Valid() && text == old(text)
      ensures GStep(r, Snapshot()) == GetTypeF(Document(), spec, IntToString(DefaultCode(NumericCodes(Responses(spec)))), old(Snapshot()))
    {
      var d := DefaultResponseCode();
      var s := GetTypeM(Document(), spec, IntToString(d), Snapshot());
      Store(s.g);
      r := s.res;
    }

    /** `response_mapping` */
    method ResponseMapping() returns (r: Result<seq<Entry>>)
      requires Valid()
      modifies this
      modifies client.parser
      ensures Valid() && text == old(text)
      ensures GStep(r, Snapshot()) == MappingF(Document(), spec, old(Snapshot()))
    {
      var d := DefaultResponseCode();
      var s := MappingM(Document(), spec, d, Snapshot());
      Store(s.g);
      r := s.res;
    }

    /** `__str__`: appends this function's text to what it rendered before. */
    method ToString() returns (r: Result<string>)
      requires Valid()
      modifies this
      modifies client.parser
      ensures Valid()
      ensures GStep(r, Snapshot()) == StrF(Document(), verb, path, spec, old(text), old(Snapshot()))
      ensures r.Ok? ==> text == r.value
      ensures r.Err? ==> text == old(text)
    {
      if !spec.JObj? {
        return Err(AttributeError("get"));
      }
      var first := ResponseMapping();
      if first.Err? {
        return Err(first.error);
      }
      r := RenderRest(first.value);
    }

    /** `__str__` after the first evaluation of the mapping. */
    method RenderRest(first: seq<Entry>) returns (r: Result<string>)
      requires Valid()
      modifies this
      modifies client.parser
      ensures Valid()
      ensures GStep(r, Snapshot()) == StrSecond(Document(), verb, path, spec, old(text), first, old(Snapshot()))
      ensures r.Ok? ==> text == r.value
      ensures r.Err? ==> text == old(text)
    {
      var second: seq<Entry> := [];
      if |first| > 0 {
        var again := ResponseMapping();
        if again.Err? {
          return Err(again.error);
        }
        second := again.value;
      }
      var mapping := MappingLiteralM(first, second);
      r := Render(mapping);
    }

    /** `__str__` once the mapping literal is known. */
    method Render(literal: string) returns (r: Result<string>)
      requires Valid()
      modifies this
      modifies client.parser
      ensures Valid()
      ensures GStep(r, Snapshot()) == StrRender(Document(), verb, path, spec, old(text), literal, old(Snapshot()))
      ensures r.Ok? ==> text == r.value
      ensures r.Err? ==> text == old(text)
    {
      var d := DefaultResponseCode();
      var name := FunctionName(verb, path, spec);
      if name.Err? {
        return Err(name.error);
      }
      var params := Params();
      if params.Err? {
        return Err(params.error);
      }
      var ret := ReturnedType();
      if ret.Err? {
        return Err(ret.error);
      }
      text := text + LimaFunctionText(verb, path, IntToString(d), literal, "{}", "lima_api.LimaException",
                                      name.value, params.value, ret.value);
      r := Ok(text);
    }
  }

  /** The client generator over the `paths` of the document. */
  class ClientGenerator {
    const parser: SchemaParser
    const paths: Json
    var models: set<string>
    var text: string

    constructor(parser: SchemaParser, paths: Json)
      ensures this.parser == parser && this.paths == paths && models == {} && text == ""
    {
      this.parser := parser;
      this.paths := paths;
      models := {};
      text := "";
    }

    /** `get_ref`, delegated to the parser. */
    method GetRef(ref: string) returns (r: Result<Schema>)
      modifies parser
      ensures Step(r, parser.State()) == ResolveRef(parser.Document(), old(parser.State()), {}, ref)
    {
      r := parser.GetRef(ref);
    }

    /** `process_schema`, delegated to the parser. */
    method ProcessSchema(name: string, data: Json) returns (r: Result<Schema>)
      modifies parser
      ensures Step(r, parser.State()) == ProcessFragment(parser.Document(), old(parser.State()), {}, name, data)
    {
      r := parser.ProcessSchema(name, data);
    }

    /** `parse`: renders every operation of every path; the client text is
        replaced only when all of them render. */
    method Parse() returns (r: Result<()>)
      modifies this, parser
      ensures var c := ClientParse(parser.Document(), old(parser.State()), paths, old(models));
              r == c.res && parser.State() == c.c.parser && models == c.c.models
              && (r.Ok? ==> text == ClientText(c.c))
              && (r.Err? ==> text == old(text))
    {
      if !paths.JObj? {
        return Err(AttributeError("items"));
      }
      var c;
      r, c := ParsePaths(paths.members);
      if r.Ok? {
        text := ClientText(c);
      }
    }

    /** The outer loop of `parse`, over the paths. */
    method ParsePaths(ps: seq<Member>) returns (r: Result<()>, c: Client)
      modifies this`models, parser
      ensures var s := PathsFrom(parser.Document(), ps, Client(old(parser.State()), old(models), [], [], ""));
              r == s.res && c == s.c && parser.State() == c.parser && models == c.models
    {
      var doc := parser.Document();
      ghost var c0 := Client(parser.State(), models, [], [], "");
      var exceptions: seq<ExceptionGen> := [];
      var embeds: seq<Schema> := [];
      var methods := "";
      var i := 0;
      while i < |ps|
        invariant 0 <= i <= |ps|
        invariant PathsFrom(doc, ps[i..], Client(parser.State(), models, exceptions, embeds, methods)) == PathsFrom(doc, ps, c0)
      {
        PathsFromNext(doc, ps, i, Client(parser.State(), models, exceptions, embeds, methods));
        var res;
        res, exceptions, embeds, methods := ParsePath(ps[i], exceptions, embeds, methods);
        if res.Err? {
          return res, Client(parser.State(), models, exceptions, embeds, methods);
        }
        i := i + 1;
      }
      assert ps[i..] == [];
      r, c := Ok(()), Client(parser.State(), models, exceptions, embeds, methods);
    }

    /** One path of the loop of `parse`. */
    method ParsePath(p: Member, exceptions0: seq<ExceptionGen>, embeds0: seq<Schema>, methods0: string)
      returns (res: Result<()>, exceptions: seq<ExceptionGen>, embeds: seq<Schema>, methods: string)
      modifies this`models, parser
      ensures var s := PathStep(parser.Document(), p, Client(old(parser.State()), old(models), exceptions0, embeds0, methods0));
              res == s.res && s.c == Client(parser.State(), models, exceptions, embeds, methods)
    {
      if !p.value.JObj? {
        return Err(AttributeError("items")), exceptions0, embeds0, methods0;
      }
      res, exceptions, embeds, methods := ParseOperations(p.key, p.value.members, exceptions0, embeds0, methods0);
    }

    /** The inner loop of `parse`, over the operations of one path. */
    method ParseOperations(path: string, ops: seq<Member>, exceptions0: seq<ExceptionGen>, embeds0: seq<Schema>, methods0: string)
      returns (res: Result<()>, exceptions: seq<ExceptionGen>, embeds: seq<Schema>, methods: string)
      modifies this`models, parser
      ensures var s := OperationsFrom(parser.Document(), path, ops, Client(old(parser.State()), old(models), exceptions0, embeds0, methods0));
              res == s.res && s.c == Client(parser.State(), models, exceptions, embeds, methods)
    {
      var doc := parser.Document();
      ghost var c0 := Client(parser.State(), models, exceptions0, embeds0, methods0);
      exceptions, embeds, methods := exceptions0, embeds0, methods0;
      var j := 0;
      while j < |ops|
        invariant 0 <= j <= |ops|
        invariant OperationsFrom(doc, path, ops[j..], Client(parser.State(), models, exceptions, embeds, methods))
                  == OperationsFrom(doc, path, ops, c0)
      {
        assert ops[j..][0] == ops[j] && ops[j..][1..] == ops[j + 1..];
        var t, f := RenderOperation(path, ops[j]);
        if t.Err? {
          return Err(t.error), exceptions, embeds, methods;
        }
        methods := methods + t.value;
        models := models + f.models;
        exceptions := AddExceptions(exceptions, f.exceptions);
        embeds := AddSchemas(embeds, f.embeds);
        j := j + 1;
      }
      res := Ok(());
    }

    /** One operation: a fresh LimaFunction, rendered once. */
    method RenderOperation(path: string, op: Member) returns (t: Result<string>, f: Gen)
      modifies parser
      ensures var s := StrF(parser.Document(), LowerStr(op.key), path, op.value, "", Gen(old(parser.State()), {}, [], []));
              t == s.res && f == s.g && parser.State() == s.g.parser
    {
      var funct := new LimaFunction(this, op.key, path, op.value);
      t := funct.ToString();
      f := funct.Snapshot();
    }
  }
}
