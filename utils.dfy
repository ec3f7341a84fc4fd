/** Turning a declared API method into binding tables, and the value codecs
    that use those tables at call time: query parameters, request body,
    final URL and response decoding. */
module Utils {
  import opened Strings
  import opened Values
  import opened Constants
  import opened Parameters
  import opened Exceptions

  // ---------------------------------------------------------------------
  // Path placeholders: `re.findall(r"\{(.+?)\}", path)`
  // ---------------------------------------------------------------------

  /** The first `}` at or after `k`, provided no newline comes before it
      (`.` does not match a newline). */
  function FindClose(s: string, k: nat): (r: Option<nat>)
    ensures r.Some? ==> k <= r.value < |s| && s[r.value] == '}'
    ensures r.Some? ==> forall j :: k <= j < r.value ==> s[j] != '}' && s[j] != '\n'
    decreases |s| - k
  {
    if k >= |s| then None
    else if s[k] == '}' then Some(k)
    else if s[k] == '\n' then None
    else FindClose(s, k + 1)
  }

  /** The groups of the lazy pattern `\{(.+?)\}` found from index `i` on:
      a `{`, then at least one character other than a newline, then
      everything up to the nearest `}`. After a match the scan resumes past
      that `}`; where no match starts, it moves on by one character. */
  function PlaceholdersFrom(s: string, i: nat): seq<string>
    decreases |s| - i
  {
    if i + 1 >= |s| then []
    else if s[i] == '{' && s[i + 1] != '\n' then
      match FindClose(s, i + 2)
      case Some(j) => [s[i + 1..j]] + PlaceholdersFrom(s, j + 1)
      case None => PlaceholdersFrom(s, i + 1)
    else PlaceholdersFrom(s, i + 1)
  }

  /** Every group found is a non-empty name written in braces in the text. */
  lemma {:induction false} PlaceholdersFromSound(s: string, i: nat)
    ensures forall x :: x in PlaceholdersFrom(s, i) ==> |x| > 0 && Contains(s, "{" + x + "}")
    decreases |s| - i
  {
    if i + 1 < |s| {
      if s[i] == '{' && s[i + 1] != '\n' && FindClose(s, i + 2).Some? {
        var j := FindClose(s, i + 2).value;
        PlaceholdersFromSound(s, j + 1);
        MatchStep(s, i, j);
        GroupSound(s, i, j);
        SoundCons(s, s[i + 1..j], PlaceholdersFrom(s, j + 1));
      } else {
        PlaceholdersFromSound(s, i + 1);
        SkipStep(s, i);
      }
    }
  }

  lemma {:induction false} GroupSound(s: string, i: nat, j: nat)
    requires i + 1 < |s| && FindClose(s, i + 2) == Some(j)
    requires s[i] == '{'
    ensures |s[i + 1..j]| > 0 && Contains(s, "{" + s[i + 1..j] + "}")
  {
    assert s[i..j + 1] == "{" + s[i + 1..j] + "}";
    ContainsWitness(s, "{" + s[i + 1..j] + "}", i);
  }

  lemma {:induction false} SoundCons(s: string, x: string, rest: seq<string>)
    requires |x| > 0 && Contains(s, "{" + x + "}")
    requires forall y :: y in rest ==> |y| > 0 && Contains(s, "{" + y + "}")
    ensures forall y :: y in [x] + rest ==> |y| > 0 && Contains(s, "{" + y + "}")
  {
  }

  /** The placeholder names of a path, in order of appearance. */
  function Placeholders(path: string): (r: seq<string>)
    ensures forall x :: x in r ==> |x| > 0 && Contains(path, "{" + x + "}")
  {
    PlaceholdersFromSound(path, 0);
    PlaceholdersFrom(path, 0)
  }

  /** A path with no `{` has no placeholder. */
  lemma {:induction false} NoBraceNoPlaceholders(s: string, i: nat)
    requires '{' !in s
    ensures PlaceholdersFrom(s, i) == []
    decreases |s| - i
  {
    if i + 1 < |s| {
      assert s[i] != '{';
      NoBraceNoPlaceholders(s, i + 1);
    }
  }

  /** A placeholder closing the path is found by name. */
  lemma PlaceholderAtEnd(u: string, x: string)
    requires '{' !in u && |x| > 0 && '}' !in x && '\n' !in x
    ensures Placeholders(u + "{" + x + "}") == [x]
  {
    var s := u + "{" + x + "}";
    SkipPlain(s, |u|, 0);
    var j := |u| + 1 + |x|;
    assert s[|u|] == '{' && s[|u| + 1] == x[0];
    FindCloseIn(s, |u| + 2, j);
    assert s[|u| + 1..j] == x;
    assert PlaceholdersFrom(s, j + 1) == [];
  }

  lemma {:induction false} SkipPlain(s: string, n: nat, i: nat)
    requires i <= n < |s| - 1
    requires forall k :: 0 <= k < n ==> s[k] != '{'
    ensures PlaceholdersFrom(s, i) == PlaceholdersFrom(s, n)
    decreases n - i
  {
    if i < n {
      SkipPlain(s, n, i + 1);
    }
  }

  lemma {:induction false} FindCloseIn(s: string, k: nat, j: nat)
    requires k <= j < |s| && s[j] == '}'
    requires forall m :: k <= m < j ==> s[m] != '}' && s[m] != '\n'
    ensures FindClose(s, k) == Some(j)
    decreases j - k
  {
    if k < j {
      FindCloseIn(s, k + 1, j);
    }
  }

  /** A path template: each part is a stretch of plain text followed by a
      `{name}` placeholder; `tail` is the text after the last one. */
  function Template(parts: seq<(string, string)>, tail: string): string
  {
    if |parts| == 0 then tail
    else parts[0].0 + "{" + parts[0].1 + "}" + Template(parts[1..], tail)
  }

  function Names(parts: seq<(string, string)>): seq<string>
  {
    if |parts| == 0 then [] else [parts[0].1] + Names(parts[1..])
  }

  /** Every placeholder of a template is found, in order, and nothing else:
      the plain text holds no `{`, and each name is non-empty and holds no
      `}` and no newline. */
  lemma {:induction false} TemplatePlaceholders(parts: seq<(string, string)>, tail: string)
    requires '{' !in tail
    requires forall k :: 0 <= k < |parts| ==> '{' !in parts[k].0
    requires forall k :: 0 <= k < |parts| ==> |parts[k].1| > 0 && '}' !in parts[k].1 && '\n' !in parts[k].1
    ensures Placeholders(Template(parts, tail)) == Names(parts)
  {
    TemplateScan(parts, tail);
  }

  lemma {:induction false} TemplateScan(parts: seq<(string, string)>, tail: string)
    requires '{' !in tail
    requires forall k :: 0 <= k < |parts| ==> '{' !in parts[k].0
    requires forall k :: 0 <= k < |parts| ==> |parts[k].1| > 0 && '}' !in parts[k].1 && '\n' !in parts[k].1
    ensures PlaceholdersFrom(Template(parts, tail), 0) == Names(parts)
    decreases |parts|
  {
    if |parts| == 0 {
      NoBraceNoPlaceholders(tail, 0);
    } else {
      var rest := Template(parts[1..], tail);
      assert Template(parts, tail) == parts[0].0 + "{" + parts[0].1 + "}" + rest;
      PlaceholderThenRest(parts[0].0, parts[0].1, rest);
      TemplateScan(parts[1..], tail);
    }
  }

  /** A placeholder after brace-free text is found first, and the scan goes
      on with the text after it. */
  lemma {:induction false} PlaceholderThenRest(u: string, x: string, rest: string)
    requires '{' !in u && |x| > 0 && '}' !in x && '\n' !in x
    ensures PlaceholdersFrom(u + "{" + x + "}" + rest, 0) == [x] + PlaceholdersFrom(rest, 0)
  {
    var pre := u + "{" + x + "}";
    var s := pre + rest;
    SkipPlain(s, |u|, 0);
    var j := |u| + 1 + |x|;
    assert s[|u|] == '{' && s[|u| + 1] == x[0];
    FindCloseIn(s, |u| + 2, j);
    assert s[|u| + 1..j] == x;
    MatchStep(s, |u|, j);
    PlaceholdersShift(pre, rest, 0);
  }

  /** `FindClose` looks only at the text from `k` on. */
  lemma {:induction false} FindCloseShift(p: string, s: string, k: nat)
    ensures FindClose(p + s, |p| + k) ==
      (match FindClose(s, k) case Some(j) => Some(|p| + j) case None => None)
    decreases |s| - k
  {
    if k < |s| {
      assert (p + s)[|p| + k] == s[k];
      FindCloseShift(p, s, k + 1);
    }
  }

  /** Scanning `p + s` past `p` finds what scanning `s` finds. */
  lemma {:induction false} PlaceholdersShift(p: string, s: string, i: nat)
    ensures PlaceholdersFrom(p + s, |p| + i) == PlaceholdersFrom(s, i)
    decreases |s| - i, 1
  {
    var t := p + s;
    var n := |p| + i;
    if i + 1 < |s| {
      assert t[n] == s[i] && t[n + 1] == s[i + 1];
      if s[i] == '{' && s[i + 1] != '\n' && FindClose(s, i + 2).Some? {
        ShiftMatch(p, s, i, FindClose(s, i + 2).value);
      } else {
        if s[i] == '{' && s[i + 1] != '\n' {
          FindCloseShift(p, s, i + 2);
        }
        PlaceholdersShift(p, s, i + 1);
        SkipStep(s, i);
        SkipStep(t, n);
      }
    }
  }

  lemma {:induction false} ShiftMatch(p: string, s: string, i: nat, j: nat)
    requires i + 1 < |s| && s[i] == '{' && s[i + 1] != '\n' && FindClose(s, i + 2) == Some(j)
    ensures PlaceholdersFrom(p + s, |p| + i) == PlaceholdersFrom(s, i)
    decreases |s| - i, 0
  {
    ShiftFacts(p, s, i, j);
    PlaceholdersShift(p, s, j + 1);
    SameGroup(p + s, s, |p|, i, j);
  }

  /** Two texts that agree on a group and on the scan after it agree on the
      scan from the group on. */
  lemma {:induction false} SameGroup(t: string, s: string, d: nat, i: nat, j: nat)
    requires i + 1 < |s| && s[i] == '{' && s[i + 1] != '\n' && FindClose(s, i + 2) == Some(j)
    requires d + i + 1 < |t| && t[d + i] == '{' && t[d + i + 1] != '\n'
    requires FindClose(t, d + i + 2) == Some(d + j)
    requires t[d + i + 1..d + j] == s[i + 1..j]
    requires PlaceholdersFrom(t, d + j + 1) == PlaceholdersFrom(s, j + 1)
    ensures PlaceholdersFrom(t, d + i) == PlaceholdersFrom(s, i)
  {
    MatchStep(s, i, j);
    MatchStep(t, d + i, d + j);
  }

  lemma {:induction false} ShiftFacts(p: string, s: string, i: nat, j: nat)
    requires i + 1 < |s| && FindClose(s, i + 2) == Some(j)
    ensures (p + s)[|p| + i] == s[i] && (p + s)[|p| + i + 1] == s[i + 1]
    ensures FindClose(p + s, |p| + i + 2) == Some(|p| + j)
    ensures (p + s)[|p| + i + 1..|p| + j] == s[i + 1..j]
  {
    FindCloseShift(p, s, i + 2);
  }

  lemma {:induction false} MatchStep(s: string, i: nat, j: nat)
    requires i + 1 < |s| && s[i] == '{' && s[i + 1] != '\n' && FindClose(s, i + 2) == Some(j)
    ensures PlaceholdersFrom(s, i) == [s[i + 1..j]] + PlaceholdersFrom(s, j + 1)
  {
    var x := s[i + 1..j];
    var rest := PlaceholdersFrom(s, j + 1);
    assert PlaceholdersFrom(s, i) == [x] + rest;
  }

  lemma {:induction false} SkipStep(s: string, i: nat)
    requires i + 1 < |s|
    requires !(s[i] == '{' && s[i + 1] != '\n') || FindClose(s, i + 2).None?
    ensures PlaceholdersFrom(s, i) == PlaceholdersFrom(s, i + 1)
  {
  }

  // ---------------------------------------------------------------------
  // Declared parameters and their bindings
  // ---------------------------------------------------------------------

  /** `inspect.Parameter.kind` */
  datatype ParamKind = PositionalOnly | PositionalOrKeyword | VarPositional | KeywordOnly | VarKeyword

  /** The default of a declared parameter: none, a plain value, or a
      `FieldInfo` (a library marker or a plain pydantic `Field`). */
  datatype DefaultDecl = NoDefault | PlainDefault(value: Value) | FieldDefault(field: FieldInfo)

  /** One entry of `inspect.signature(func).parameters`; an absent annotation
      is `inspect.Parameter.empty`. */
  datatype ParamDecl = ParamDecl(name: string, kind: ParamKind, annotation: Option<PyType>, default: DefaultDecl)

  /** The `LimaParams` record built for one bound parameter. `default` is
      absent when the record has no "default" key; `modelDumpMode` is
      absent when it has no "model_dump_mode" key. */
  datatype LimaParams = LimaParams(
    kwargsName: string,
    apiName: string,
    default: Option<Value>,
    modelDumpMode: Option<string>,
    cls: TypeClass,
    wrap: Option<PyType>)

  /** The five tables `get_mappings` returns. */
  datatype Tables = Tables(
    query: seq<LimaParams>,
    path: seq<LimaParams>,
    body: Option<LimaParams>,
    header: seq<LimaParams>,
    file: seq<LimaParams>)

  const POSITIONAL_MSG := "positional parameters are not supported, use funct(self, *, ...)"
  const TOO_MANY_BODY_MSG := "too many body params"

  /** `self`, `*args` and `**kwargs` are never bound. */
  predicate Considered(p: ParamDecl)
  {
    p.name != "self" && p.name != "args" && p.name != "kwargs"
  }

  /** The name the parameter has on the wire: the marker's serialisation
      alias, else its alias, else the parameter name. */
  function ApiName(p: ParamDecl): (r: string)
    ensures !p.default.FieldDefault? ==> r == p.name
    ensures p.default.FieldDefault? && p.default.field.serializationAlias.Some? ==>
              r == p.default.field.serializationAlias.value
    ensures p.default.FieldDefault? && p.default.field.serializationAlias.None? && p.default.field.alias.Some? ==>
              r == p.default.field.alias.value
    ensures p.default.FieldDefault? && p.default.field.serializationAlias.None? && p.default.field.alias.None? ==>
              r == p.name
  {
    match p.default
    case FieldDefault(f) =>
      if f.serializationAlias.Some? then f.serializationAlias.value
      else if f.alias.Some? then f.alias.value
      else p.name
    case _ => p.name
  }

  /** `cls`: the first type argument when the annotation has any, else the
      annotation itself. */
  function ClsOf(t: PyType): (r: TypeClass)
    ensures |Args(t)| > 0 ==> r == Args(t)[0]
    ensures t.Plain? ==> r == t.cls
  {
    if |Args(t)| > 0 then Args(t)[0]
    else match t
      case Plain(c) => c
      case Generic(o, _) => OriginClass(o)
  }

  /** `wrap`: the whole annotation when it has type arguments. */
  function WrapOf(t: PyType): (r: Option<PyType>)
    ensures r.Some? <==> |Args(t)| > 0
    ensures r.Some? ==> r.value == t
  {
    if |Args(t)| > 0 then Some(t) else None
  }

  /** The "default" entry: a marker's default unless it is pydantic's
      undefined sentinel, or a plain default when there is one. */
  function DefaultOf(p: ParamDecl): (r: Option<Value>)
    ensures p.default.NoDefault? ==> r.None?
    ensures p.default.PlainDefault? ==> r == Some(p.default.value)
    ensures p.default.FieldDefault? ==> r == p.default.field.default
  {
    match p.default
    case FieldDefault(f) => f.default
    case PlainDefault(v) => Some(v)
    case NoDefault => None
  }

  function MarkerOf(p: ParamDecl): Option<Marker>
  {
    if p.default.FieldDefault? then p.default.field.marker else None
  }

  /** The file-like annotations (`typing.IO`, `TextIO`, `BinaryIO`), given
      bare or as a type argument. */
  predicate IsFileAnnotation(t: PyType)
  {
    (exists i | 0 <= i < |Args(t)| :: IsFileClass(Args(t)[i])) || (t.Plain? && IsFileClass(t.cls))
  }

  predicate IsContainerClass(c: TypeClass)
  {
    c == ListClass || c == TupleClass || c == DictClass
  }

  /** The record built for a typed parameter before its location is decided. */
  function BaseParams(p: ParamDecl): LimaParams
    requires p.annotation.Some?
  {
    var marker := MarkerOf(p);
    LimaParams(
      p.name, ApiName(p), DefaultOf(p),
      if marker.Some? && marker.value.QueryParam? then Some(marker.value.modelDumpMode) else None,
      ClsOf(p.annotation.value), WrapOf(p.annotation.value))
  }

  /** Where a typed parameter is bound, and its final record:
      marker, then file type, then model class, then container class, then
      path placeholder, else query. */
  function Classify(p: ParamDecl, placeholders: seq<string>, verb: string): (r: (Location, LimaParams))
    requires p.annotation.Some?
    ensures r.1.kwargsName == p.name && r.1.apiName == ApiName(p)
  {
    var t := p.annotation.value;
    var pm := BaseParams(p);
    var marker := MarkerOf(p);
    if marker.Some? then (marker.value.Location(), pm)
    else if IsFileAnnotation(t) then (FILE, pm)
    else if pm.cls.ModelClass? then
      if verb == "GET" then (QUERY, pm.(modelDumpMode := Some(DICT.Value()))) else (BODY, pm)
    else if IsContainerClass(pm.cls) then (if verb == "GET" then QUERY else BODY, pm)
    else if pm.apiName in placeholders then (PATH, pm)
    else (QUERY, pm)
  }

  /** The state of the scan over the declared parameters. */
  datatype Scan = Scan(tables: Tables, untyped: seq<string>)

  function EmptyScan(): Scan
  {
    Scan(Tables([], [], None, [], []), [])
  }

  /** Files a classified parameter into the table of its location. */
  function Route(sc: Scan, loc: Location, pm: LimaParams): (r: Result<Scan>)
    ensures r.Err? <==> loc == BODY && sc.tables.body.Some?
  {
    var t := sc.tables;
    match loc
    case QUERY => Ok(sc.(tables := t.(query := t.query + [pm])))
    case PATH => Ok(sc.(tables := t.(path := t.path + [pm])))
    case BODY => if t.body.Some? then Err(ValueError(TOO_MANY_BODY_MSG)) else Ok(sc.(tables := t.(body := Some(pm))))
    case HEADER => Ok(sc.(tables := t.(header := t.header + [pm])))
    case FILE => Ok(sc.(tables := t.(file := t.file + [pm])))
  }

  /** One iteration of the loop over the declared parameters. */
  function Step(sc: Scan, p: ParamDecl, placeholders: seq<string>, verb: string): Result<Scan>
  {
    if !Considered(p) then Ok(sc)
    else if p.kind != KeywordOnly then Err(ValueError(POSITIONAL_MSG))
    else if p.annotation.None? then Ok(sc.(untyped := sc.untyped + [p.name]))
    else
      var c := Classify(p, placeholders, verb);
      Route(sc, c.0, c.1)
  }

  /** The loop run over a prefix of the parameters; it stops at the first
      error. */
  function ScanAll(params: seq<ParamDecl>, placeholders: seq<string>, verb: string): Result<Scan>
    decreases |params|
  {
    if |params| == 0 then Ok(EmptyScan())
    else
      match ScanAll(params[..|params| - 1], placeholders, verb)
      case Err(e) => Err(e)
      case Ok(sc) => Step(sc, params[|params| - 1], placeholders, verb)
  }

  function ApiNames(ps: seq<LimaParams>): (r: seq<string>)
    ensures |r| == |ps|
    ensures forall i :: 0 <= i < |ps| ==> r[i] == ps[i].apiName
  {
    if |ps| == 0 then [] else [ps[0].apiName] + ApiNames(ps[1..])
  }

  /** `set(placeholders) - set(bound)`, listed once each in path order. */
  function Missing(placeholders: seq<string>, bound: seq<string>): (r: seq<string>)
    ensures forall x :: x in r <==> x in placeholders && x !in bound
    ensures forall i, j :: 0 <= i < j < |r| ==> r[i] != r[j]
    decreases |placeholders|
  {
    if |placeholders| == 0 then []
    else
      var last := placeholders[|placeholders| - 1];
      var rest := Missing(placeholders[..|placeholders| - 1], bound);
      assert forall x :: x in placeholders <==> x in placeholders[..|placeholders| - 1] || x == last;
      if last in bound || last in rest then rest else rest + [last]
  }

  function UntypedMessage(names: seq<string>): string
  {
    "Required parameter typing for: " + Join(names, ", ")
  }

  function MissingPathMessage(names: seq<string>): string
  {
    "path parameters need to be defined: <" + Join(names, ",") + ">"
  }

  /** `get_mappings(path, parameters, verb)`. */
  function Mappings(path: string, params: seq<ParamDecl>, verb: string): Result<Tables>
  {
    var placeholders := Placeholders(path);
    match ScanAll(params, placeholders, verb)
    case Err(e) => Err(e)
    case Ok(sc) => Finish(sc, placeholders)
  }

  /** After the scan: the untyped parameters, then the unbound placeholders. */
  function Finish(sc: Scan, placeholders: seq<string>): Result<Tables>
  {
    if |sc.untyped| > 0 then Err(TypeError(UntypedMessage(sc.untyped)))
    else
      var missing := Missing(placeholders, ApiNames(sc.tables.path));
      if |missing| > 0 then Err(Raised(NewLimaException(MissingPathMessage(missing))))
      else Ok(sc.tables)
  }

  /** An error stops the scan: it is the outcome for every longer list. */
  lemma {:induction false} ScanErrorSticks(params: seq<ParamDecl>, n: nat, placeholders: seq<string>, verb: string)
    requires n <= |params|
    requires ScanAll(params[..n], placeholders, verb).Err?
    ensures ScanAll(params, placeholders, verb) == ScanAll(params[..n], placeholders, verb)
    decreases |params| - n
  {
    if n < |params| {
      assert params[..n + 1][..n] == params[..n];
      ScanErrorSticks(params, n + 1, placeholders, verb);
    } else {
      assert params[..n] == params;
    }
  }

  /** The classifier, written with the loop of the source. */
  method GetMappings(path: string, params: seq<ParamDecl>, verb: string) returns (r: Result<Tables>)
    ensures r == Mappings(path, params, verb)
  {
    var placeholders := Placeholders(path);
    var sc := EmptyScan();
    var i := 0;
    while i < |params|
      invariant 0 <= i <= |params|
      invariant ScanAll(params[..i], placeholders, verb) == Ok(sc)
    {
      var next := ScanStep(sc, params[i], placeholders, verb);
      if next.Err? {
        ScanStopsAt(params, placeholders, verb, i);
        MappingsOfErr(path, params, verb);
        return Err(next.error);
      }
      ScanAllNext(params, placeholders, verb, i);
      sc := next.value;
      i := i + 1;
    }
    assert params[..i] == params;
    MappingsOfOk(path, params, verb);
    r := CheckScan(sc, placeholders);
  }

  /** The checks after the loop: untyped parameters, then unbound
      placeholders. */
  method CheckScan(sc: Scan, placeholders: seq<string>) returns (r: Result<Tables>)
    ensures r == Finish(sc, placeholders)
  {
    if |sc.untyped| > 0 {
      return Err(TypeError(UntypedMessage(sc.untyped)));
    }
    var missing := Missing(placeholders, ApiNames(sc.tables.path));
    if |missing| > 0 {
      return Err(Raised(NewLimaException(MissingPathMessage(missing))));
    }
    return Ok(sc.tables);
  }

  /** One pass of the loop: the parameter is skipped, rejected, listed as
      untyped, or appended to the list of its location. */
  method ScanStep(sc: Scan, p: ParamDecl, placeholders: seq<string>, verb: string) returns (r: Result<Scan>)
    ensures r == Step(sc, p, placeholders, verb)
  {
    var query, pathTable, header, file := sc.tables.query, sc.tables.path, sc.tables.header, sc.tables.file;
    var body, unknown := sc.tables.body, sc.untyped;
    if Considered(p) {
      if p.kind != KeywordOnly {
        return Err(ValueError(POSITIONAL_MSG));
      }
      if p.annotation.None? {
        unknown := unknown + [p.name];
      } else {
        var c := Classify(p, placeholders, verb);
        var location, pm := c.0, c.1;
        if location == QUERY {
          query := query + [pm];
        } else if location == PATH {
          pathTable := pathTable + [pm];
        } else if location == BODY {
          if body.Some? {
            return Err(ValueError(TOO_MANY_BODY_MSG));
          }
          body := Some(pm);
        } else if location == HEADER {
          header := header + [pm];
        } else {
          file := file + [pm];
        }
      }
    }
    return Ok(Scan(Tables(query, pathTable, body, header, file), unknown));
  }

  // ---------------------------------------------------------------------
  // What the classifier promises, against reference definitions
  // ---------------------------------------------------------------------

  /** Every parameter that is bound at all is keyword-only. */
  predicate AllKeywordOnly(params: seq<ParamDecl>)
  {
    forall i :: 0 <= i < |params| && Considered(params[i]) ==> params[i].kind == KeywordOnly
  }

  /** The untyped parameters, in declaration order. */
  function Untyped(params: seq<ParamDecl>): seq<string>
    decreases |params|
  {
    if |params| == 0 then []
    else
      var p := params[|params| - 1];
      Untyped(params[..|params| - 1]) + (if Considered(p) && p.annotation.None? then [p.name] else [])
  }

  /** The records of the typed parameters that classify to `loc`, in
      declaration order. */
  function Bound(params: seq<ParamDecl>, placeholders: seq<string>, verb: string, loc: Location): seq<LimaParams>
    decreases |params|
  {
    if |params| == 0 then []
    else
      var p := params[|params| - 1];
      Bound(params[..|params| - 1], placeholders, verb, loc)
      + (if Considered(p) && p.annotation.Some? && Classify(p, placeholders, verb).0 == loc
         then [Classify(p, placeholders, verb).1] else [])
  }

  /** A successful scan has filed every typed parameter into the table of its
      location, in order, and collected every untyped one. */
  predicate ScanMatches(sc: Scan, params: seq<ParamDecl>, placeholders: seq<string>, verb: string)
  {
    var body := Bound(params, placeholders, verb, BODY);
    && sc.tables.query == Bound(params, placeholders, verb, QUERY)
    && sc.tables.path == Bound(params, placeholders, verb, PATH)
    && sc.tables.header == Bound(params, placeholders, verb, HEADER)
    && sc.tables.file == Bound(params, placeholders, verb, FILE)
    && |body| <= 1
    && sc.tables.body == (if |body| == 0 then None else Some(body[0]))
    && sc.untyped == Untyped(params)
  }

  /** The scan succeeds exactly when every bound parameter is keyword-only
      and at most one classifies as BODY; it then agrees with the reference
      tables. */
  lemma {:induction false} ScanAllSpec(params: seq<ParamDecl>, placeholders: seq<string>, verb: string)
    ensures ScanAll(params, placeholders, verb).Ok? <==>
              AllKeywordOnly(params) && |Bound(params, placeholders, verb, BODY)| <= 1
    ensures ScanAll(params, placeholders, verb).Ok? ==>
              ScanMatches(ScanAll(params, placeholders, verb).value, params, placeholders, verb)
    decreases |params|
  {
    if |params| > 0 {
      var n := |params| - 1;
      var pre := params[..n];
      var p := params[n];
      ScanAllSpec(pre, placeholders, verb);
      assert AllKeywordOnly(params) <==> AllKeywordOnly(pre) && (Considered(p) ==> p.kind == KeywordOnly) by {
        assert forall i :: 0 <= i < n ==> pre[i] == params[i];
      }
      assert |Bound(pre, placeholders, verb, BODY)| <= |Bound(params, placeholders, verb, BODY)|;
      match ScanAll(pre, placeholders, verb)
      case Err(_) =>
      case Ok(sc) =>
        assert ScanAll(params, placeholders, verb) == Step(sc, p, placeholders, verb);
        StepSpec(sc, params, placeholders, verb);
    }
  }

  /** One step keeps the scan in agreement with the reference tables. */
  lemma StepSpec(sc: Scan, params: seq<ParamDecl>, placeholders: seq<string>, verb: string)
    requires |params| > 0
    requires var pre := params[..|params| - 1];
      ScanMatches(sc, pre, placeholders, verb) && |Bound(pre, placeholders, verb, BODY)| <= 1
    ensures var p := params[|params| - 1]; var r := Step(sc, p, placeholders, verb);
      && (r.Ok? <==> (Considered(p) ==> p.kind == KeywordOnly) && |Bound(params, placeholders, verb, BODY)| <= 1)
      && (r.Ok? ==> ScanMatches(r.value, params, placeholders, verb))
  {
    var n := |params| - 1;
    var pre := params[..n];
    var p := params[n];
    if Considered(p) && p.kind == KeywordOnly && p.annotation.Some? {
      StepTyped(sc, params, placeholders, verb);
    } else if !Considered(p) || p.annotation.None? {
      forall l ensures Bound(params, placeholders, verb, l) == Bound(pre, placeholders, verb, l) {
        assert Bound(params, placeholders, verb, l) == Bound(pre, placeholders, verb, l) + [];
      }
    }
  }

  lemma StepTyped(sc: Scan, params: seq<ParamDecl>, placeholders: seq<string>, verb: string)
    requires |params| > 0
    requires var p := params[|params| - 1]; Considered(p) && p.kind == KeywordOnly && p.annotation.Some?
    requires var pre := params[..|params| - 1];
      ScanMatches(sc, pre, placeholders, verb) && |Bound(pre, placeholders, verb, BODY)| <= 1
    ensures var p := params[|params| - 1]; var r := Step(sc, p, placeholders, verb);
      && (r.Ok? <==> |Bound(params, placeholders, verb, BODY)| <= 1)
      && (r.Ok? ==> ScanMatches(r.value, params, placeholders, verb))
  {
    var n := |params| - 1;
    var pre := params[..n];
    var p := params[n];
    var c := Classify(p, placeholders, verb);
    assert Untyped(params) == Untyped(pre) + [];
    forall l ensures Bound(params, placeholders, verb, l)
                  == Bound(pre, placeholders, verb, l) + (if l == c.0 then [c.1] else []) {
    }
    assert Step(sc, p, placeholders, verb) == Route(sc, c.0, c.1);
  }

  /** `get_mappings` succeeds exactly when every bound parameter is
      keyword-only and typed, at most one is a BODY, and every placeholder
      of the path has a PATH binding of that API name. */
  lemma MappingsOkIff(path: string, params: seq<ParamDecl>, verb: string)
    ensures var ph := Placeholders(path);
      Mappings(path, params, verb).Ok? <==>
        && AllKeywordOnly(params)
        && |Untyped(params)| == 0
        && |Bound(params, ph, verb, BODY)| <= 1
        && forall x :: x in ph ==> x in ApiNames(Bound(params, ph, verb, PATH))
  {
    var ph := Placeholders(path);
    ScanAllSpec(params, ph, verb);
    var sc := ScanAll(params, ph, verb);
    if sc.Ok? && |sc.value.untyped| == 0 {
      var names := ApiNames(sc.value.tables.path);
      var missing := Missing(ph, names);
      if |missing| > 0 {
        assert missing[0] in ph && missing[0] !in names;
      } else {
        forall x | x in ph ensures x in names {
          assert x !in missing;
        }
      }
    }
  }

  /** On success the tables are exactly the reference partition of the
      parameters by location. */
  lemma MappingsTables(path: string, params: seq<ParamDecl>, verb: string)
    requires Mappings(path, params, verb).Ok?
    ensures var ph := Placeholders(path); var t := Mappings(path, params, verb).value;
      && t.query == Bound(params, ph, verb, QUERY)
      && t.path == Bound(params, ph, verb, PATH)
      && t.header == Bound(params, ph, verb, HEADER)
      && t.file == Bound(params, ph, verb, FILE)
      && (t.body.Some? <==> |Bound(params, ph, verb, BODY)| == 1)
      && (t.body.Some? ==> t.body.value == Bound(params, ph, verb, BODY)[0])
  {
    var ph := Placeholders(path);
    var r := ScanAll(params, ph, verb);
    assert r.Ok? by {
      if r.Err? {
        MappingsOfErr(path, params, verb);
      }
    }
    MappingsOfOk(path, params, verb);
    FinishOk(r.value, ph);
    ScanAllSpec(params, ph, verb);
  }

  lemma FinishOk(sc: Scan, placeholders: seq<string>)
    requires Finish(sc, placeholders).Ok?
    ensures Finish(sc, placeholders).value == sc.tables
  {
  }

  /** A parameter that is not keyword-only fails registration as soon as the
      scan reaches it, whatever follows. */
  lemma PositionalRejected(path: string, params: seq<ParamDecl>, verb: string, k: nat)
    requires k < |params| && Considered(params[k]) && params[k].kind != KeywordOnly
    requires ScanAll(params[..k], Placeholders(path), verb).Ok?
    ensures Mappings(path, params, verb) == Err(ValueError(POSITIONAL_MSG))
  {
    var ph := Placeholders(path);
    PositionalStep(ScanAll(params[..k], ph, verb).value, params[k], ph, verb);
    ScanStopsAt(params, ph, verb, k);
    MappingsOfErr(path, params, verb);
  }

  lemma PositionalStep(sc: Scan, p: ParamDecl, placeholders: seq<string>, verb: string)
    requires Considered(p) && p.kind != KeywordOnly
    ensures Step(sc, p, placeholders, verb) == Err(ValueError(POSITIONAL_MSG))
  {
  }

  /** A second parameter classified as BODY fails registration at once. */
  lemma SecondBodyRejected(path: string, params: seq<ParamDecl>, verb: string, k: nat)
    requires k < |params| && Considered(params[k]) && params[k].kind == KeywordOnly && params[k].annotation.Some?
    requires Classify(params[k], Placeholders(path), verb).0 == BODY
    requires ScanAll(params[..k], Placeholders(path), verb).Ok?
    requires ScanAll(params[..k], Placeholders(path), verb).value.tables.body.Some?
    ensures Mappings(path, params, verb) == Err(ValueError(TOO_MANY_BODY_MSG))
  {
    var ph := Placeholders(path);
    SecondBodyStep(ScanAll(params[..k], ph, verb).value, params[k], ph, verb);
    ScanStopsAt(params, ph, verb, k);
    MappingsOfErr(path, params, verb);
  }

  lemma SecondBodyStep(sc: Scan, p: ParamDecl, placeholders: seq<string>, verb: string)
    requires Considered(p) && p.kind == KeywordOnly && p.annotation.Some?
    requires Classify(p, placeholders, verb).0 == BODY && sc.tables.body.Some?
    ensures Step(sc, p, placeholders, verb) == Err(ValueError(TOO_MANY_BODY_MSG))
  {
    var c := Classify(p, placeholders, verb);
    assert Step(sc, p, placeholders, verb) == Route(sc, c.0, c.1);
  }

  /** The scan one parameter further. */
  lemma ScanAllNext(params: seq<ParamDecl>, placeholders: seq<string>, verb: string, k: nat)
    requires k < |params| && ScanAll(params[..k], placeholders, verb).Ok?
    ensures ScanAll(params[..k + 1], placeholders, verb)
         == Step(ScanAll(params[..k], placeholders, verb).value, params[k], placeholders, verb)
  {
    var pre := params[..k + 1];
    assert pre[..k] == params[..k] && pre[k] == params[k];
  }

  /** A step that fails at position `k` is the outcome of the whole scan. */
  lemma ScanStopsAt(params: seq<ParamDecl>, placeholders: seq<string>, verb: string, k: nat)
    requires k < |params| && ScanAll(params[..k], placeholders, verb).Ok?
    requires Step(ScanAll(params[..k], placeholders, verb).value, params[k], placeholders, verb).Err?
    ensures ScanAll(params, placeholders, verb)
         == Step(ScanAll(params[..k], placeholders, verb).value, params[k], placeholders, verb)
  {
    var pre := params[..k + 1];
    assert pre[..k] == params[..k] && pre[k] == params[k];
    ScanErrorSticks(params, k + 1, placeholders, verb);
  }

  /** With no positional parameter and at most one body, the untyped
      parameters are reported together, in declaration order. */
  lemma UntypedReported(path: string, params: seq<ParamDecl>, verb: string)
    requires AllKeywordOnly(params) && |Bound(params, Placeholders(path), verb, BODY)| <= 1
    requires |Untyped(params)| > 0
    ensures Mappings(path, params, verb) == Err(TypeError(UntypedMessage(Untyped(params))))
  {
    ScanAllSpec(params, Placeholders(path), verb);
  }

  /** Otherwise a placeholder without a PATH binding fails registration with
      a `LimaException` naming the unbound placeholders. */
  lemma MissingPathReported(path: string, params: seq<ParamDecl>, verb: string, x: string)
    requires AllKeywordOnly(params) && |Bound(params, Placeholders(path), verb, BODY)| <= 1
    requires |Untyped(params)| == 0
    requires x in Placeholders(path) && x !in ApiNames(Bound(params, Placeholders(path), verb, PATH))
    ensures var m := Mappings(path, params, verb);
      m.Err? && m.error.Raised? && m.error.exc.className == "LimaException" && m.error.exc.statusCode == 0
      && exists names :: m.error.exc.detail == MissingPathMessage(names) && x in names
  {
    MissingPathScan(params, Placeholders(path), verb, x);
    MappingsOfOk(path, params, verb);
  }

  lemma MissingPathScan(params: seq<ParamDecl>, placeholders: seq<string>, verb: string, x: string)
    requires AllKeywordOnly(params) && |Bound(params, placeholders, verb, BODY)| <= 1
    requires |Untyped(params)| == 0
    requires x in placeholders && x !in ApiNames(Bound(params, placeholders, verb, PATH))
    ensures var r := ScanAll(params, placeholders, verb);
      r.Ok? && var m := Finish(r.value, placeholders);
      m.Err? && m.error.Raised? && m.error.exc.className == "LimaException" && m.error.exc.statusCode == 0
      && exists names :: m.error.exc.detail == MissingPathMessage(names) && x in names
  {
    ScanAllSpec(params, placeholders, verb);
    FinishMissing(ScanAll(params, placeholders, verb).value, placeholders, x);
  }

  /** `get_mappings` after a successful scan, and after a failed one. */
  lemma MappingsOfOk(path: string, params: seq<ParamDecl>, verb: string)
    requires ScanAll(params, Placeholders(path), verb).Ok?
    ensures Mappings(path, params, verb) == Finish(ScanAll(params, Placeholders(path), verb).value, Placeholders(path))
  {
  }

  lemma MappingsOfErr(path: string, params: seq<ParamDecl>, verb: string)
    requires ScanAll(params, Placeholders(path), verb).Err?
    ensures Mappings(path, params, verb) == Err(ScanAll(params, Placeholders(path), verb).error)
  {
  }

  lemma FinishMissing(sc: Scan, placeholders: seq<string>, x: string)
    requires |sc.untyped| == 0 && x in placeholders && x !in ApiNames(sc.tables.path)
    ensures var m := Finish(sc, placeholders);
      m.Err? && m.error.Raised? && m.error.exc.className == "LimaException" && m.error.exc.statusCode == 0
      && exists names :: m.error.exc.detail == MissingPathMessage(names) && x in names
  {
    var missing := Missing(placeholders, ApiNames(sc.tables.path));
    assert x in missing;
  }

  /** An explicit marker decides the location, whatever the annotation. */
  lemma MarkerWins(p: ParamDecl, placeholders: seq<string>, verb: string, f: FieldInfo)
    requires p.annotation.Some? && p.default == FieldDefault(f) && f.marker.Some?
    ensures Classify(p, placeholders, verb).0 == f.marker.value.Location()
  {
  }

  /** Without a marker, a model class (also as the first argument of
      `Optional[...]` or `list[...]`) is a BODY, except under GET, where it is
      a query parameter dumped in the DICT mode. */
  lemma ModelClassification(p: ParamDecl, placeholders: seq<string>, verb: string)
    requires p.annotation.Some? && MarkerOf(p).None? && !IsFileAnnotation(p.annotation.value)
    requires ClsOf(p.annotation.value).ModelClass?
    ensures verb == "GET" ==>
              Classify(p, placeholders, verb).0 == QUERY && Classify(p, placeholders, verb).1.modelDumpMode == Some("dict")
    ensures verb != "GET" ==> Classify(p, placeholders, verb).0 == BODY
  {
  }

  /** A scalar parameter whose API name is a placeholder goes to the path;
      any other unmarked scalar goes to the query. */
  lemma ScalarClassification(p: ParamDecl, placeholders: seq<string>, verb: string)
    requires p.annotation.Some? && MarkerOf(p).None? && !IsFileAnnotation(p.annotation.value)
    requires var c := ClsOf(p.annotation.value); !c.ModelClass? && !IsContainerClass(c)
    ensures Classify(p, placeholders, verb).0 == (if ApiName(p) in placeholders then PATH else QUERY)
  {
  }

  /** Bare list, tuple and dict annotations go to the query under GET and to
      the body otherwise. */
  lemma ContainerClassification(p: ParamDecl, placeholders: seq<string>, verb: string)
    requires p.annotation.Some? && MarkerOf(p).None? && !IsFileAnnotation(p.annotation.value)
    requires IsContainerClass(ClsOf(p.annotation.value))
    ensures Classify(p, placeholders, verb).0 == (if verb == "GET" then QUERY else BODY)
  {
  }

  // ---------------------------------------------------------------------
  // Query parameters: `get_request_params`
  // ---------------------------------------------------------------------

  function MissingArgMessage(name: string): string
  {
    "required argument missing <" + name + ">"
  }

  /** The argument a binding takes: the keyword argument, else the record's
      default; `None` when neither exists. */
  function ArgumentOf(pm: LimaParams, kwargs: map<string, Value>): (r: Option<Value>)
    ensures pm.kwargsName in kwargs ==> r == Some(kwargs[pm.kwargsName])
    ensures pm.kwargsName !in kwargs ==> r == pm.default
  {
    if pm.kwargsName in kwargs then Some(kwargs[pm.kwargsName]) else pm.default
  }

  /** `item.value if hasattr(item, "value") else item` over a sequence. */
  function EnumValues(items: seq<Value>): (r: seq<Value>)
    ensures |r| == |items|
    ensures forall i :: 0 <= i < |items| ==> r[i] == if items[i].Enum? then items[i].value else items[i]
  {
    if |items| == 0 then [] else [if items[0].Enum? then items[0].value else items[0]] + EnumValues(items[1..])
  }

  function ModeOf(pm: LimaParams): Option<DumpMode>
  {
    if pm.modelDumpMode.Some? then DumpModeOf(pm.modelDumpMode.value) else None
  }

  /** What a defined argument adds to the query map. */
  function Encode(d: seq<Field>, pm: LimaParams, v: Value): seq<Field>
  {
    var mode := ModeOf(pm);
    if v.Model? && mode.Some? && mode.value.MergesFields() then
      DictUpdate(d, DumpFields(v.fields, true, mode.value.ExcludesNone(), false))
    else if v.Model? && mode.Some? then
      DictSet(d, pm.apiName, Str(JsonText(Dict(DumpFields(v.fields, false, mode.value.ExcludesNone(), true)))))
    else if pm.cls.EnumClass? && v.Enum? then DictSet(d, pm.apiName, v.value)
    else if pm.cls.EnumClass? && v.List? then DictSet(d, pm.apiName, List(EnumValues(v.items)))
    else DictSet(d, pm.apiName, v)
  }

  /** One iteration of the loop over the query bindings. */
  function ParamStep(d: seq<Field>, pm: LimaParams, kwargs: map<string, Value>, undefined: seq<Value>): Result<seq<Field>>
  {
    match ArgumentOf(pm, kwargs)
    case None => Err(TypeError(MissingArgMessage(pm.kwargsName)))
    case Some(v) => if PyIn(v, undefined) then Ok(d) else Ok(Encode(d, pm, v))
  }

  /** `get_request_params(mapping, kwargs, undefined_values)` on a prefix of
      the bindings. */
  function RequestParams(mapping: seq<LimaParams>, kwargs: map<string, Value>, undefined: seq<Value>): Result<seq<Field>>
    decreases |mapping|
  {
    if |mapping| == 0 then Ok([])
    else
      match RequestParams(mapping[..|mapping| - 1], kwargs, undefined)
      case Err(e) => Err(e)
      case Ok(d) => ParamStep(d, mapping[|mapping| - 1], kwargs, undefined)
  }

  lemma {:induction false} RequestErrorSticks(mapping: seq<LimaParams>, n: nat, kwargs: map<string, Value>, undefined: seq<Value>)
    requires n <= |mapping|
    requires RequestParams(mapping[..n], kwargs, undefined).Err?
    ensures RequestParams(mapping, kwargs, undefined) == RequestParams(mapping[..n], kwargs, undefined)
    decreases |mapping| - n
  {
    if n < |mapping| {
      assert mapping[..n + 1][..n] == mapping[..n];
      RequestErrorSticks(mapping, n + 1, kwargs, undefined);
    } else {
      assert mapping[..n] == mapping;
    }
  }

  /** The query map, built with the loop of the source. */
  method GetRequestParams(mapping: seq<LimaParams>, kwargs: map<string, Value>, undefined: seq<Value>)
    returns (r: Result<seq<Field>>)
    ensures r == RequestParams(mapping, kwargs, undefined)
  {
    var params: seq<Field> := [];
    var i := 0;
    while i < |mapping|
      invariant 0 <= i <= |mapping|
      invariant RequestParams(mapping[..i], kwargs, undefined) == Ok(params)
    {
      RequestParamsNext(mapping, i, kwargs, undefined);
      var next := AddParam(params, mapping[i], kwargs, undefined);
      if next.Err? {
        RequestErrorSticks(mapping, i + 1, kwargs, undefined);
        return next;
      }
      params := next.value;
      i := i + 1;
    }
    assert mapping[..i] == mapping;
    return Ok(params);
  }

  lemma RequestParamsNext(mapping: seq<LimaParams>, k: nat, kwargs: map<string, Value>, undefined: seq<Value>)
    requires k < |mapping| && RequestParams(mapping[..k], kwargs, undefined).Ok?
    ensures RequestParams(mapping[..k + 1], kwargs, undefined)
         == ParamStep(RequestParams(mapping[..k], kwargs, undefined).value, mapping[k], kwargs, undefined)
  {
    var pre := mapping[..k + 1];
    assert pre[..k] == mapping[..k] && pre[k] == mapping[k];
  }

  /** One pass of the loop of `get_request_params`. */
  method AddParam(params: seq<Field>, pm: LimaParams, kwargs: map<string, Value>, undefined: seq<Value>)
    returns (r: Result<seq<Field>>)
    ensures r == ParamStep(params, pm, kwargs, undefined)
  {
    if pm.kwargsName !in kwargs && pm.default.None? {
      return Err(TypeError(MissingArgMessage(pm.kwargsName)));
    }
    var value := if pm.kwargsName in kwargs then kwargs[pm.kwargsName] else pm.default.value;
    if PyIn(value, undefined) {
      return Ok(params);
    }
    var mode := ModeOf(pm);
    if value.Model? && mode.Some? && mode.value.MergesFields() {
      r := Ok(DictUpdate(params, DumpFields(value.fields, true, mode.value.ExcludesNone(), false)));
    } else if value.Model? && mode.Some? {
      r := Ok(DictSet(params, pm.apiName,
                      Str(JsonText(Dict(DumpFields(value.fields, false, mode.value.ExcludesNone(), true))))));
    } else if pm.cls.EnumClass? && value.Enum? {
      r := Ok(DictSet(params, pm.apiName, value.value));
    } else if pm.cls.EnumClass? && value.List? {
      r := Ok(DictSet(params, pm.apiName, List(EnumValues(value.items))));
    } else {
      r := Ok(DictSet(params, pm.apiName, value));
    }
  }

  /** Every binding has an argument: a keyword argument or a default. */
  predicate AllProvided(mapping: seq<LimaParams>, kwargs: map<string, Value>)
  {
    forall i :: 0 <= i < |mapping| ==> mapping[i].kwargsName in kwargs || mapping[i].default.Some?
  }

  /** The query map is built exactly when every binding has an argument, and
      its keys are then distinct. */
  lemma {:induction false} RequestParamsOkIff(mapping: seq<LimaParams>, kwargs: map<string, Value>, undefined: seq<Value>)
    ensures RequestParams(mapping, kwargs, undefined).Ok? <==> AllProvided(mapping, kwargs)
    ensures RequestParams(mapping, kwargs, undefined).Ok? ==> DistinctKeys(RequestParams(mapping, kwargs, undefined).value)
    decreases |mapping|
  {
    if |mapping| > 0 {
      var n := |mapping| - 1;
      var pre := mapping[..n];
      RequestParamsOkIff(pre, kwargs, undefined);
      AllProvidedSnoc(mapping, kwargs);
      var r := RequestParams(pre, kwargs, undefined);
      assert RequestParams(mapping, kwargs, undefined)
             == if r.Err? then Err(r.error) else ParamStep(r.value, mapping[n], kwargs, undefined);
      if r.Ok? {
        ParamStepFacts(r.value, mapping[n], kwargs, undefined);
      }
    }
  }

  lemma AllProvidedSnoc(mapping: seq<LimaParams>, kwargs: map<string, Value>)
    requires |mapping| > 0
    ensures var n := |mapping| - 1;
            AllProvided(mapping, kwargs) <==> AllProvided(mapping[..n], kwargs) && (mapping[n].kwargsName in kwargs || mapping[n].default.Some?)
  {
    var n := |mapping| - 1;
    assert forall i :: 0 <= i < n ==> mapping[..n][i] == mapping[i];
  }

  /** One binding succeeds exactly when it has an argument, and keeps the
      keys distinct. */
  lemma ParamStepFacts(d: seq<Field>, pm: LimaParams, kwargs: map<string, Value>, undefined: seq<Value>)
    requires DistinctKeys(d)
    ensures ParamStep(d, pm, kwargs, undefined).Ok? <==> pm.kwargsName in kwargs || pm.default.Some?
    ensures ParamStep(d, pm, kwargs, undefined).Ok? ==> DistinctKeys(ParamStep(d, pm, kwargs, undefined).value)
  {
    var arg := ArgumentOf(pm, kwargs);
    if arg.Some? && !PyIn(arg.value, undefined) {
      EncodeDistinct(d, pm, arg.value);
    }
  }

  lemma EncodeDistinct(d: seq<Field>, pm: LimaParams, v: Value)
    requires DistinctKeys(d)
    ensures DistinctKeys(Encode(d, pm, v))
  {
    var mode := ModeOf(pm);
    if v.Model? && mode.Some? && mode.value.MergesFields() {
      DictUpdateDistinct(d, DumpFields(v.fields, true, mode.value.ExcludesNone(), false));
    } else if v.Model? && mode.Some? {
      DictSetDistinct(d, pm.apiName, Str(JsonText(Dict(DumpFields(v.fields, false, mode.value.ExcludesNone(), true)))));
    } else if pm.cls.EnumClass? && v.Enum? {
      DictSetDistinct(d, pm.apiName, v.value);
    } else if pm.cls.EnumClass? && v.List? {
      DictSetDistinct(d, pm.apiName, List(EnumValues(v.items)));
    } else {
      DictSetDistinct(d, pm.apiName, v);
    }
  }

  /** The first binding with neither a keyword argument nor a default is the
      one the TypeError names. */
  lemma FirstMissingReported(mapping: seq<LimaParams>, kwargs: map<string, Value>, undefined: seq<Value>, k: nat)
    requires k < |mapping| && mapping[k].kwargsName !in kwargs && mapping[k].default.None?
    requires AllProvided(mapping[..k], kwargs)
    ensures RequestParams(mapping, kwargs, undefined) == Err(TypeError(MissingArgMessage(mapping[k].kwargsName)))
  {
    RequestParamsOkIff(mapping[..k], kwargs, undefined);
    assert mapping[..k + 1][..k] == mapping[..k];
    RequestErrorSticks(mapping, k + 1, kwargs, undefined);
  }

  /** An argument equal, by Python's `==`, to one of the undefined values adds
      nothing; any other argument is encoded. */
  lemma UndefinedOmitted(d: seq<Field>, pm: LimaParams, kwargs: map<string, Value>, undefined: seq<Value>)
    requires ArgumentOf(pm, kwargs).Some?
    ensures PyIn(ArgumentOf(pm, kwargs).value, undefined) ==> ParamStep(d, pm, kwargs, undefined) == Ok(d)
    ensures !PyIn(ArgumentOf(pm, kwargs).value, undefined) ==>
              ParamStep(d, pm, kwargs, undefined) == Ok(Encode(d, pm, ArgumentOf(pm, kwargs).value))
  {
  }

  /** With `undefined_values=(None, "", 0)` a `False` argument is left out,
      because `False == 0`; with the default `(None, "")` so is a member of a
      str-mixed enum whose value is "". */
  lemma UndefinedByPythonEquality(d: seq<Field>, pm: LimaParams, kwargs: map<string, Value>, c: string, m: string)
    requires pm.kwargsName in kwargs
    ensures kwargs[pm.kwargsName] == Bool(false) ==> ParamStep(d, pm, kwargs, [Null, Str(""), Int(0)]) == Ok(d)
    ensures kwargs[pm.kwargsName] == Enum(c, m, Str(""), true) ==> ParamStep(d, pm, kwargs, [Null, Str("")]) == Ok(d)
  {
    var v := kwargs[pm.kwargsName];
    if v == Bool(false) {
      assert Int(0) in [Null, Str(""), Int(0)] && PyEq(Int(0), v);
    }
    if v == Enum(c, m, Str(""), true) {
      PyEqUnwrapsRight(Str(""), v);
      assert Str("") in [Null, Str("")] && PyEq(Str(""), v);
    }
  }

  /** A plain argument is stored under its API name and nothing else changes. */
  lemma PlainStored(d: seq<Field>, pm: LimaParams, v: Value)
    requires !v.Model? || ModeOf(pm).None?
    requires !(pm.cls.EnumClass? && (v.Enum? || v.List?))
    ensures DictGet(Encode(d, pm, v), pm.apiName) == Some(v)
    ensures forall k :: k != pm.apiName ==> DictGet(Encode(d, pm, v), k) == DictGet(d, k)
  {
  }

  /** In the two dict modes a model's entries are merged into the map under
      their aliases; in DICT mode a key all of whose fields are None is not
      added. */
  lemma DictModeMerges(d: seq<Field>, pm: LimaParams, v: Value, k: string)
    requires v.Model? && ModeOf(pm).Some? && ModeOf(pm).value.MergesFields()
    ensures var dump := DumpFields(v.fields, true, ModeOf(pm).value.ExcludesNone(), false);
      DictGet(Encode(d, pm, v), k) == if k in Keys(dump) then LookupLast(dump, k) else DictGet(d, k)
    ensures (ModeOf(pm).value == DICT && forall i :: 0 <= i < |v.fields| && v.fields[i].alias == k ==> v.fields[i].value == Null)
              ==> DictGet(Encode(d, pm, v), k) == DictGet(d, k)
  {
    var mode := ModeOf(pm).value;
    var dump := DumpFields(v.fields, true, mode.ExcludesNone(), false);
    DictUpdateGet(d, dump, k);
    if mode == DICT && (forall i :: 0 <= i < |v.fields| && v.fields[i].alias == k ==> v.fields[i].value == Null) {
      DumpFieldsDropsNone(v.fields, true, false, k);
    }
  }

  /** In the two JSON modes the model is stored as one JSON text under the
      API name, keyed by field name, with nulls dropped in JSON mode. */
  lemma JsonModeStores(d: seq<Field>, pm: LimaParams, v: Value)
    requires v.Model? && ModeOf(pm).Some? && !ModeOf(pm).value.MergesFields()
    ensures DictGet(Encode(d, pm, v), pm.apiName)
         == Some(Str(JsonText(Dict(DumpFields(v.fields, false, ModeOf(pm).value == JSON, true)))))
  {
  }

  /** An enum-typed binding sends the member's value, or the values of a
      list of members. */
  lemma EnumEncoded(d: seq<Field>, pm: LimaParams, v: Value)
    requires pm.cls.EnumClass? && (v.Enum? || v.List?)
    requires !v.Model?
    ensures v.Enum? ==> DictGet(Encode(d, pm, v), pm.apiName) == Some(v.value)
    ensures v.List? ==> DictGet(Encode(d, pm, v), pm.apiName) == Some(List(EnumValues(v.items)))
  {
  }

  // ---------------------------------------------------------------------
  // Request body: `get_body`
  // ---------------------------------------------------------------------

  /** What pydantic validation (`TypeAdapter(t).validate_python(v)`) gives;
      a parameter of the model, since it is pydantic's own behaviour. */
  type Validator = (PyType, Value) -> Result<Value>

  /** `model_dump(by_alias=True, exclude_none=True, mode="json")` of each
      validated item; any item that is not a model has no `model_dump`. */
  function DumpModels(items: seq<Value>): (r: Result<seq<Value>>)
    ensures r.Ok? ==> |r.value| == |items| && forall i :: 0 <= i < |items| ==> items[i].Model? && r.value[i].Dict?
  {
    if |items| == 0 then Ok([])
    else if !items[0].Model? then Err(AttributeError("model_dump"))
    else
      match DumpModels(items[1..])
      case Err(e) => Err(e)
      case Ok(rest) =>
        assert forall i :: 1 <= i < |items| ==> items[i] == items[1..][i - 1];
        Ok([DumpValue(items[0], true, true, true)] + rest)
  }

  /** `get_body(body_mapping, kwargs)`: `None` when there is no body. */
  function Body(bm: Option<LimaParams>, kwargs: map<string, Value>, validate: Validator): (r: Result<Option<Value>>)
    ensures bm.None? ==> r == Ok(None)
    ensures bm.Some? && bm.value.kwargsName !in kwargs ==> r == Err(KeyError(bm.value.kwargsName))
    ensures r.Ok? && r.value.Some? ==> r.value.value.Dict? || r.value.value.List?
    ensures bm.Some? && !bm.value.cls.ModelClass? && bm.value.kwargsName in kwargs ==>
              var v := kwargs[bm.value.kwargsName];
              r == Ok(Some(if v.List? || v.Dict? then v else Dict([Entry(bm.value.apiName, v)])))
  {
    match bm
    case None => Ok(None)
    case Some(pm) =>
      if pm.kwargsName !in kwargs then Err(KeyError(pm.kwargsName))
      else
        var arg := kwargs[pm.kwargsName];
        if pm.cls.ModelClass? then
          var target := if pm.wrap.Some? then pm.wrap.value else Plain(pm.cls);
          if arg == Null && NoneType in Args(target) then Ok(None)
          else
            match validate(target, arg)
            case Err(e) => Err(e)
            case Ok(b) =>
              if b.List? then
                match DumpModels(b.items)
                case Err(e) => Err(e)
                case Ok(items) => Ok(Some(List(items)))
              else if b.Model? then Ok(Some(DumpValue(b, true, true, true)))
              else Err(AttributeError("model_dump"))
        else if arg.List? || arg.Dict? then Ok(Some(arg))
        else Ok(Some(Dict([Entry(pm.apiName, arg)])))
  }

  /** A None argument for an optional model is no body at all, and is not
      validated. */
  lemma OptionalModelNone(pm: LimaParams, kwargs: map<string, Value>, validate: Validator)
    requires pm.cls.ModelClass? && pm.wrap.Some? && NoneType in Args(pm.wrap.value)
    requires pm.kwargsName in kwargs && kwargs[pm.kwargsName] == Null
    ensures Body(Some(pm), kwargs, validate) == Ok(None)
  {
  }

  /** A validated model is sent as its by-alias dump without None fields;
      a validated list of models as the list of their dumps. */
  lemma ModelBodyDumped(pm: LimaParams, kwargs: map<string, Value>, validate: Validator)
    requires pm.cls.ModelClass? && pm.kwargsName in kwargs
    requires var target := if pm.wrap.Some? then pm.wrap.value else Plain(pm.cls);
      !(kwargs[pm.kwargsName] == Null && NoneType in Args(target))
    requires var target := if pm.wrap.Some? then pm.wrap.value else Plain(pm.cls);
      validate(target, kwargs[pm.kwargsName]).Ok?
    ensures var target := if pm.wrap.Some? then pm.wrap.value else Plain(pm.cls);
      var b := validate(target, kwargs[pm.kwargsName]).value;
      && (b.Model? ==> Body(Some(pm), kwargs, validate) == Ok(Some(Dict(DumpFields(b.fields, true, true, true)))))
      && (b.List? && DumpModels(b.items).Ok? ==> Body(Some(pm), kwargs, validate) == Ok(Some(List(DumpModels(b.items).value))))
  {
  }

  // ---------------------------------------------------------------------
  // Final URL: `get_final_url`
  // ---------------------------------------------------------------------

  function Brace(name: string): (r: string)
    ensures |r| == |name| + 2 && r[0] == '{'
  {
    "{" + name + "}"
  }

  /** `get_final_url(url, path_params_mapping, kwargs)` on a prefix of the
      path bindings; a binding whose argument is absent raises KeyError. */
  function FinalUrl(url: string, mapping: seq<LimaParams>, kwargs: map<string, Value>): Result<string>
    decreases |mapping|
  {
    if |mapping| == 0 then Ok(url)
    else
      var pm := mapping[|mapping| - 1];
      match FinalUrl(url, mapping[..|mapping| - 1], kwargs)
      case Err(e) => Err(e)
      case Ok(u) =>
        if pm.kwargsName !in kwargs then Err(KeyError(pm.kwargsName))
        else Ok(ReplaceAll(u, Brace(pm.apiName), Display(kwargs[pm.kwargsName])))
  }

  lemma {:induction false} UrlErrorSticks(url: string, mapping: seq<LimaParams>, n: nat, kwargs: map<string, Value>)
    requires n <= |mapping|
    requires FinalUrl(url, mapping[..n], kwargs).Err?
    ensures FinalUrl(url, mapping, kwargs) == FinalUrl(url, mapping[..n], kwargs)
    decreases |mapping| - n
  {
    if n < |mapping| {
      assert mapping[..n + 1][..n] == mapping[..n];
      UrlErrorSticks(url, mapping, n + 1, kwargs);
    } else {
      assert mapping[..n] == mapping;
    }
  }

  /** The URL rewritten one binding at a time, as the source loops. */
  method GetFinalUrl(url: string, mapping: seq<LimaParams>, kwargs: map<string, Value>) returns (r: Result<string>)
    ensures r == FinalUrl(url, mapping, kwargs)
  {
    var u := url;
    var i := 0;
    while i < |mapping|
      invariant 0 <= i <= |mapping|
      invariant FinalUrl(url, mapping[..i], kwargs) == Ok(u)
    {
      var pm := mapping[i];
      assert mapping[..i + 1][..i] == mapping[..i];
      if pm.kwargsName !in kwargs {
        UrlErrorSticks(url, mapping, i + 1, kwargs);
        return Err(KeyError(pm.kwargsName));
      }
      u := ReplaceAll(u, Brace(pm.apiName), Display(kwargs[pm.kwargsName]));
      i := i + 1;
    }
    assert mapping[..i] == mapping;
    return Ok(u);
  }

  /** The URL is built exactly when every path binding has its keyword
      argument (path bindings have no default fallback). */
  lemma {:induction false} FinalUrlOkIff(url: string, mapping: seq<LimaParams>, kwargs: map<string, Value>)
    ensures FinalUrl(url, mapping, kwargs).Ok? <==> forall i :: 0 <= i < |mapping| ==> mapping[i].kwargsName in kwargs
    decreases |mapping|
  {
    if |mapping| > 0 {
      var n := |mapping| - 1;
      FinalUrlOkIff(url, mapping[..n], kwargs);
      assert forall i :: 0 <= i < n ==> mapping[..n][i] == mapping[i];
    }
  }

  /** A placeholder occurring once, after a stretch without `{`, is replaced
      by the text of its argument. */
  lemma SubstituteOne(u: string, t: string, pm: LimaParams, kwargs: map<string, Value>)
    requires '{' !in u && !Contains(t, Brace(pm.apiName))
    requires pm.kwargsName in kwargs
    ensures FinalUrl(u + Brace(pm.apiName) + t, [pm], kwargs) == Ok(u + Display(kwargs[pm.kwargsName]) + t)
  {
    var pat := Brace(pm.apiName);
    var rep := Display(kwargs[pm.kwargsName]);
    var url := u + pat + t;
    assert [pm][..0] == [];
    assert FinalUrl(url, [pm], kwargs) == Ok(ReplaceAll(url, pat, rep));
    assert url == u + (pat + t);
    ReplaceSkipsPrefix(u, pat + t, pat, rep);
    ReplaceAtFront(t, pat, rep);
    ReplaceAbsent(t, pat, rep);
    assert ReplaceAll(url, pat, rep) == u + (rep + t);
    assert u + (rep + t) == u + rep + t;
  }

  /** With no path bindings the URL comes back unchanged. */
  lemma NoPathBindings(url: string, kwargs: map<string, Value>)
    ensures FinalUrl(url, [], kwargs) == Ok(url)
  {
  }

  // ---------------------------------------------------------------------
  // Response decoding: `parse_data`
  // ---------------------------------------------------------------------

  /** What pydantic decoding (`TypeAdapter(t).validate_json(data)`) gives;
      a parameter of the model. */
  type Decoder = (PyType, seq<byte>) -> Result<Value>

  /** `parse_data(parse_class, data)`; `parseClass == None` is a Python
      None class (a `-> None` method). */
  function ParseData(parseClass: Option<PyType>, data: seq<byte>, decode: Decoder): (r: Result<Value>)
    ensures parseClass.None? ==> r == Ok(Null)
    ensures (parseClass.Some? && |data| == 0 && parseClass.value.Generic? && parseClass.value.origin == UnionOrigin
              && NoneType in parseClass.value.args) ==> r == Ok(Null)
    ensures parseClass == Some(Plain(BytesClass)) ==> r == Ok(Raw(data))
    ensures parseClass == Some(Plain(AnyType)) ==> r.Ok?
    ensures r.Err? ==>
              parseClass.Some? && parseClass.value != Plain(AnyType) && decode(parseClass.value, data) == r
  {
    match parseClass
    case None => Ok(Null)
    case Some(t) =>
      if |data| == 0 && t.Generic? && t.origin == UnionOrigin && NoneType in t.args then Ok(Null)
      else if t == Plain(BytesClass) then Ok(Raw(data))
      else
        match decode(t, data)
        case Ok(v) => Ok(v)
        case Err(e) => if t == Plain(AnyType) then Ok(Raw(data)) else Err(e)
  }

  /** Any other class gives what decoding gives; on failure under `Any` the
      raw bytes come back. */
  lemma ParseDataDecodes(t: PyType, data: seq<byte>, decode: Decoder)
    requires t != Plain(BytesClass)
    requires !(|data| == 0 && t.Generic? && t.origin == UnionOrigin && NoneType in t.args)
    ensures decode(t, data).Ok? ==> ParseData(Some(t), data, decode) == decode(t, data)
    ensures decode(t, data).Err? && t == Plain(AnyType) ==> ParseData(Some(t), data, decode) == Ok(Raw(data))
  {
  }
}
