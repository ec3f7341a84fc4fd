/** The Python runtime data that the request pipeline handles: call-time
    argument values, declared type annotations, and the pydantic serialisation
    the pipeline relies on (dump by alias, optionally dropping None, JSON text). */
module Values {
  import opened Strings

  type byte = x: int | 0 <= x < 256

  /** One field of a model, or one entry of a dict, in declaration order.
      `alias` is the key `model_dump(by_alias=True)` emits (the field name
      when the field has no alias); a dict entry has `alias == name`. */
  datatype Field = Field(name: string, alias: string, value: Value)
  {
    function Key(byAlias: bool): string
    {
      if byAlias then alias else name
    }
  }

  /** A dict entry. */
  function Entry(k: string, v: Value): (f: Field)
    ensures f.Key(true) == k && f.Key(false) == k && f.value == v
  {
    Field(k, k, v)
  }

  /** A call-time argument value. */
  datatype Value =
    | Null
    | Bool(b: bool)
    | Int(i: int)
    | Str(s: string)
    | Raw(bytes: seq<byte>)
    | Enum(cls: string, member: string, value: Value, mixin: bool)
    | Model(cls: string, fields: seq<Field>)
    | List(items: seq<Value>)
    | Dict(entries: seq<Field>)

  /** The classes that can stand in an annotation or as a type argument. */
  datatype TypeClass =
    | ModelClass(name: string)
    | EnumClass(name: string)
    | ListClass
    | TupleClass
    | DictClass
    | IOClass
    | TextIOClass
    | BinaryIOClass
    | NoneType
    | AnyType
    | BytesClass
    | ScalarClass(name: string)

  /** What `typing.get_origin` reports for a subscripted annotation. */
  datatype Origin = UnionOrigin | ListOrigin | TupleOrigin | DictOrigin | OtherOrigin(name: string)

  /** A declared annotation: a bare class, or a subscripted generic such as
      `Optional[Item]` (origin Union, arguments Item and NoneType) or
      `list[Item]` (origin list, argument Item). */
  datatype PyType = Plain(cls: TypeClass) | Generic(origin: Origin, args: seq<TypeClass>)

  /** `typing.get_args(t)` */
  function Args(t: PyType): seq<TypeClass>
  {
    match t
    case Plain(_) => []
    case Generic(_, args) => args
  }

  /** The class a bare generic alias such as `typing.List` stands for. */
  function OriginClass(o: Origin): TypeClass
  {
    match o
    case ListOrigin => ListClass
    case TupleOrigin => TupleClass
    case DictOrigin => DictClass
    case UnionOrigin => AnyType
    case OtherOrigin(n) => ScalarClass(n)
  }

  predicate IsFileClass(c: TypeClass)
  {
    c == IOClass || c == TextIOClass || c == BinaryIOClass
  }

  predicate IsModel(v: Value) { v.Model? }

  /** `isinstance(v, (list, tuple))`; a tuple argument is a `List`. */
  predicate IsSequence(v: Value) { v.List? }

  /** The value a field or dict entry takes in a dump; nested models become
      dicts, and in JSON mode an enum member becomes its value. */
  function DumpValue(v: Value, byAlias: bool, excludeNone: bool, jsonMode: bool): (r: Value)
    ensures v.Model? ==> r.Dict?
    ensures v == Null ==> r == Null
    decreases v, 1
  {
    match v
    case Model(_, fields) => Dict(DumpFields(fields, byAlias, excludeNone, jsonMode))
    case List(items) => List(DumpItems(items, byAlias, excludeNone, jsonMode))
    case Dict(entries) => Dict(DumpEntries(entries, byAlias, excludeNone, jsonMode))
    case Enum(_, _, inner, _) => if jsonMode then DumpValue(inner, byAlias, excludeNone, jsonMode) else v
    case _ => v
  }

  /** The entries of `model_dump(by_alias=byAlias, exclude_none=excludeNone)`:
      one per field, keyed by alias or by name, in declaration order, minus
      the None-valued fields when `excludeNone` holds. */
  function DumpFields(fields: seq<Field>, byAlias: bool, excludeNone: bool, jsonMode: bool): (r: seq<Field>)
    ensures |r| <= |fields|
    ensures !excludeNone ==> |r| == |fields|
    decreases fields, 0
  {
    if |fields| == 0 then []
    else
      var rest := DumpFields(fields[1..], byAlias, excludeNone, jsonMode);
      if excludeNone && fields[0].value == Null then rest
      else [Entry(fields[0].Key(byAlias), DumpValue(fields[0].value, byAlias, excludeNone, jsonMode))] + rest
  }

  function DumpItems(items: seq<Value>, byAlias: bool, excludeNone: bool, jsonMode: bool): (r: seq<Value>)
    ensures |r| == |items|
    decreases items, 0
  {
    if |items| == 0 then []
    else [DumpValue(items[0], byAlias, excludeNone, jsonMode)] + DumpItems(items[1..], byAlias, excludeNone, jsonMode)
  }

  function DumpEntries(entries: seq<Field>, byAlias: bool, excludeNone: bool, jsonMode: bool): (r: seq<Field>)
    ensures |r| == |entries|
    decreases entries, 0
  {
    if |entries| == 0 then []
    else [Entry(entries[0].name, DumpValue(entries[0].value, byAlias, excludeNone, jsonMode))]
         + DumpEntries(entries[1..], byAlias, excludeNone, jsonMode)
  }

  /** The by-alias keys of a field list, in order (for a dict: its keys). */
  function Keys(fields: seq<Field>): (r: seq<string>)
    ensures |r| == |fields|
    ensures forall i :: 0 <= i < |fields| ==> r[i] == fields[i].alias
  {
    if |fields| == 0 then [] else [fields[0].alias] + Keys(fields[1..])
  }

  /** Every field survives a dump under its key, except a None-valued one
      when None is excluded. */
  lemma {:induction false} DumpFieldsKeeps(fields: seq<Field>, byAlias: bool, excludeNone: bool, jsonMode: bool, i: nat)
    requires i < |fields|
    requires excludeNone ==> fields[i].value != Null
    ensures fields[i].Key(byAlias) in Keys(DumpFields(fields, byAlias, excludeNone, jsonMode))
  {
    var r := DumpFields(fields, byAlias, excludeNone, jsonMode);
    var rest := DumpFields(fields[1..], byAlias, excludeNone, jsonMode);
    if i == 0 {
      assert r[0].alias == fields[0].Key(byAlias);
    } else {
      DumpFieldsKeeps(fields[1..], byAlias, excludeNone, jsonMode, i - 1);
      assert fields[1..][i - 1] == fields[i];
      if !(excludeNone && fields[0].value == Null) {
        assert Keys(r) == [fields[0].Key(byAlias)] + Keys(rest);
      }
    }
  }

  /** A None-excluding dump has no entry for a key all of whose fields are None. */
  lemma {:induction false} DumpFieldsDropsNone(fields: seq<Field>, byAlias: bool, jsonMode: bool, k: string)
    requires forall i :: 0 <= i < |fields| && fields[i].Key(byAlias) == k ==> fields[i].value == Null
    ensures k !in Keys(DumpFields(fields, byAlias, true, jsonMode))
  {
    if |fields| > 0 {
      DumpFieldsDropsNone(fields[1..], byAlias, jsonMode, k);
      var rest := DumpFields(fields[1..], byAlias, true, jsonMode);
      if fields[0].value != Null {
        assert Keys(DumpFields(fields, byAlias, true, jsonMode)) == [fields[0].Key(byAlias)] + Keys(rest);
      }
    }
  }

  /** Every entry of a dump is its own key's entry: dumps are dicts. */
  lemma {:induction false} DumpFieldsAreEntries(fields: seq<Field>, byAlias: bool, excludeNone: bool, jsonMode: bool)
    ensures forall f :: f in DumpFields(fields, byAlias, excludeNone, jsonMode) ==> f.name == f.alias
  {
    if |fields| > 0 {
      DumpFieldsAreEntries(fields[1..], byAlias, excludeNone, jsonMode);
    }
  }

  // ---------------------------------------------------------------------
  // A Python dict with string keys, as its entries in insertion order
  // ---------------------------------------------------------------------

  predicate DistinctKeys(d: seq<Field>)
  {
    forall i, j :: 0 <= i < j < |d| ==> d[i].alias != d[j].alias
  }

  /** `d.get(k)` */
  function DictGet(d: seq<Field>, k: string): (r: Option<Value>)
    ensures r.Some? <==> k in Keys(d)
  {
    if |d| == 0 then None
    else if d[0].alias == k then Some(d[0].value)
    else DictGet(d[1..], k)
  }

  /** `d[k] = v`: an existing key keeps its place, a new one goes last. */
  function DictSet(d: seq<Field>, k: string, v: Value): (r: seq<Field>)
    ensures DictGet(r, k) == Some(v)
    ensures forall k' :: k' != k ==> DictGet(r, k') == DictGet(d, k')
  {
    if |d| == 0 then [Entry(k, v)]
    else if d[0].alias == k then [Entry(k, v)] + d[1..]
    else [d[0]] + DictSet(d[1..], k, v)
  }

  /** Setting a new key appends it. */
  lemma {:induction false} DictSetNew(d: seq<Field>, k: string, v: Value)
    requires k !in Keys(d)
    ensures DictSet(d, k, v) == d + [Entry(k, v)]
  {
    if |d| > 0 {
      assert Keys(d) == [d[0].alias] + Keys(d[1..]);
      DictSetNew(d[1..], k, v);
      assert d == [d[0]] + d[1..];
    }
  }

  /** Setting an existing key keeps the key order. */
  lemma {:induction false} DictSetExisting(d: seq<Field>, k: string, v: Value)
    requires k in Keys(d)
    ensures Keys(DictSet(d, k, v)) == Keys(d)
  {
    assert Keys(d) == [d[0].alias] + Keys(d[1..]);
    if d[0].alias != k {
      DictSetExisting(d[1..], k, v);
      assert Keys([d[0]] + DictSet(d[1..], k, v)) == [d[0].alias] + Keys(DictSet(d[1..], k, v));
    } else {
      assert Keys([Entry(k, v)] + d[1..]) == [k] + Keys(d[1..]);
    }
  }

  /** So distinct keys stay distinct. */
  lemma DictSetDistinct(d: seq<Field>, k: string, v: Value)
    requires DistinctKeys(d)
    ensures DistinctKeys(DictSet(d, k, v))
  {
    var r := DictSet(d, k, v);
    if k in Keys(d) {
      DictSetExisting(d, k, v);
      assert forall i :: 0 <= i < |r| ==> r[i].alias == Keys(r)[i] == Keys(d)[i] == d[i].alias;
    } else {
      DictSetNew(d, k, v);
      assert forall i :: 0 <= i < |d| ==> d[i].alias == Keys(d)[i];
    }
  }

  /** The value the last entry with key `k` holds. */
  function LookupLast(es: seq<Field>, k: string): (r: Option<Value>)
    ensures r.Some? <==> k in Keys(es)
    decreases |es|
  {
    if |es| == 0 then None
    else if es[|es| - 1].alias == k then Some(es[|es| - 1].value)
    else
      assert Keys(es) == Keys(es[..|es| - 1]) + [es[|es| - 1].alias];
      LookupLast(es[..|es| - 1], k)
  }

  /** `d.update(es)` */
  function DictUpdate(d: seq<Field>, es: seq<Field>): (r: seq<Field>)
    decreases |es|
  {
    if |es| == 0 then d
    else DictUpdate(DictSet(d, es[0].alias, es[0].value), es[1..])
  }

  /** After an update a key holds the value of its last entry in `es`, and
      every other key keeps its value. */
  lemma {:induction false} DictUpdateGet(d: seq<Field>, es: seq<Field>, k: string)
    ensures DictGet(DictUpdate(d, es), k) == if k in Keys(es) then LookupLast(es, k) else DictGet(d, k)
    decreases |es|
  {
    if |es| > 0 {
      var d1 := DictSet(d, es[0].alias, es[0].value);
      DictUpdateGet(d1, es[1..], k);
      assert Keys(es) == [es[0].alias] + Keys(es[1..]);
      LookupLastFront(es, k);
    }
  }

  /** An update of a dict with distinct keys leaves the keys distinct. */
  lemma {:induction false} DictUpdateDistinct(d: seq<Field>, es: seq<Field>)
    requires DistinctKeys(d)
    ensures DistinctKeys(DictUpdate(d, es))
    decreases |es|
  {
    if |es| > 0 {
      DictSetDistinct(d, es[0].alias, es[0].value);
      DictUpdateDistinct(DictSet(d, es[0].alias, es[0].value), es[1..]);
    }
  }

  lemma {:induction false} LookupLastFront(es: seq<Field>, k: string)
    requires |es| > 0
    ensures LookupLast(es, k) == if k in Keys(es[1..]) then LookupLast(es[1..], k)
                                 else if es[0].alias == k then Some(es[0].value) else None
    decreases |es|
  {
    var t := es[1..];
    if |es| == 1 {
      assert t == [];
    } else {
      var n := |es| - 1;
      assert t[n - 1] == es[n];
      if es[n].alias == k {
        assert Keys(t)[n - 1] == k;
      } else {
        var u := es[..n];
        assert t[..n - 1] == u[1..];
        assert LookupLast(es, k) == LookupLast(u, k);
        assert LookupLast(t, k) == LookupLast(t[..n - 1], k);
        assert k in Keys(t) <==> k in Keys(u[1..]) by {
          assert forall i :: 0 <= i < n - 1 ==> Keys(t)[i] == Keys(u[1..])[i];
          assert Keys(t)[n - 1] != k;
        }
        LookupLastFront(u, k);
        assert u[0] == es[0];
      }
    }
  }

  function ByteChars(b: seq<byte>): string
  {
    if |b| == 0 then "" else [b[0] as char] + ByteChars(b[1..])
  }

  /** A JSON string literal. */
  function JsonString(s: string): (r: string)
    ensures |r| >= 2 && r[0] == '"' && r[|r| - 1] == '"'
  {
    "\"" + JsonEscape(s) + "\""
  }

  function JsonEscape(s: string): string
  {
    if |s| == 0 then ""
    else
      var c := s[0];
      JsonEscapeChar(c) + JsonEscape(s[1..])
  }

  /** One character inside a JSON string as pydantic writes it: the quote,
      the backslash and the control characters escaped (the five with short
      escapes, the rest as `\u00xx`), everything else as it is. */
  function JsonEscapeChar(c: char): (r: string)
    ensures forall i :: 0 <= i < |r| ==> ' ' <= r[i]
    ensures ' ' <= c && c != '"' && c != '\\' ==> r == [c]
  {
    if c == '"' then "\\\""
    else if c == '\\' then "\\\\"
    else if c == '\n' then "\\n"
    else if c == '\r' then "\\r"
    else if c == '\t' then "\\t"
    else if c as int == 8 then "\\b"
    else if c as int == 12 then "\\f"
    else if c < ' ' then ['\\', 'u', '0', '0', Hex(c as int / 16), Hex(c as int % 16)]
    else [c]
  }

  /** No control character is left raw inside a JSON string. */
  lemma {:induction false} JsonEscapeNoControl(s: string)
    ensures forall i :: 0 <= i < |JsonEscape(s)| ==> ' ' <= JsonEscape(s)[i]
  {
    if |s| > 0 {
      JsonEscapeNoControl(s[1..]);
      var a, b := JsonEscapeChar(s[0]), JsonEscape(s[1..]);
      assert JsonEscape(s) == a + b;
      forall i | 0 <= i < |a + b| ensures ' ' <= (a + b)[i] {
        if i >= |a| { assert (a + b)[i] == b[i - |a|]; }
      }
    }
  }

  /** Text without quotes, backslashes or control characters goes into a JSON
      string unchanged. */
  lemma {:induction false} JsonEscapePlain(s: string)
    requires forall i :: 0 <= i < |s| ==> ' ' <= s[i] && s[i] != '"' && s[i] != '\\'
    ensures JsonEscape(s) == s
  {
    if |s| > 0 {
      JsonEscapePlain(s[1..]);
      assert s == [s[0]] + s[1..];
    }
  }

  /** A tab and a carriage return are written as `\t` and `\r`. */
  lemma JsonEscapesTabAndReturn()
    ensures JsonString("a\tb\r") == "\"a\\tb\\r\""
  {
  }

  /** Compact JSON text, as pydantic's `model_dump_json` writes it. */
  function JsonText(v: Value): string
    decreases v, 1
  {
    match v
    case Null => "null"
    case Bool(b) => if b then "true" else "false"
    case Int(i) => IntToString(i)
    case Str(s) => JsonString(s)
    case Raw(b) => JsonString(ByteChars(b))
    case Enum(_, _, inner, _) => JsonText(inner)
    case Model(_, fields) => "{" + JsonMembers(fields) + "}"
    case List(items) => "[" + JsonItems(items) + "]"
    case Dict(entries) => "{" + JsonMembers(entries) + "}"
  }

  function JsonMembers(fields: seq<Field>): string
    decreases fields, 0
  {
    if |fields| == 0 then ""
    else
      JsonString(fields[0].name) + ":" + JsonText(fields[0].value)
      + (if |fields| > 1 then "," else "") + JsonMembers(fields[1..])
  }

  function JsonItems(items: seq<Value>): string
    decreases items, 0
  {
    if |items| == 0 then ""
    else JsonText(items[0]) + (if |items| > 1 then "," else "") + JsonItems(items[1..])
  }

  /** Python's `repr(v)`. */
  function Repr(v: Value): string
    decreases v, 1
  {
    match v
    case Null => "None"
    case Bool(b) => if b then "True" else "False"
    case Int(i) => IntToString(i)
    case Str(s) => PyStrRepr(s)
    case Raw(b) => BytesRepr(b)
    case Enum(cls, member, inner, _) => "<" + cls + "." + member + ": " + Repr(inner) + ">"
    case Model(cls, fields) => cls + "(" + ReprFields(fields, "=", false, ", ") + ")"
    case List(items) => "[" + ReprItems(items) + "]"
    case Dict(entries) => "{" + ReprFields(entries, ": ", true, ", ") + "}"
  }

  /** The fields of a model or the entries of a dict, each as its name,
      `sep` and the value's repr, separated by `joiner`. */
  function ReprFields(fields: seq<Field>, sep: string, quoteKeys: bool, joiner: string): string
    decreases fields, 0
  {
    if |fields| == 0 then ""
    else
      (if quoteKeys then PyStrRepr(fields[0].name) else fields[0].name) + sep + Repr(fields[0].value)
      + (if |fields| > 1 then joiner else "") + ReprFields(fields[1..], sep, quoteKeys, joiner)
  }

  function ReprItems(items: seq<Value>): string
    decreases items, 0
  {
    if |items| == 0 then ""
    else Repr(items[0]) + (if |items| > 1 then ", " else "") + ReprItems(items[1..])
  }

  /** Python's `str(v)`, which is what an f-string substitutes. An enum
      member is written `Class.MEMBER`, as Python 3.11 and later write a
      plain or a str-mixed enum member. */
  function Display(v: Value): string
  {
    match v
    case Str(s) => s
    case Enum(cls, member, _, _) => cls + "." + member
    case Model(_, fields) => ReprFields(fields, "=", false, " ")
    case _ => Repr(v)
  }

  /** `str` of a model is its fields as `name=repr`, separated by single
      spaces, as pydantic's `__str__` writes them. */
  lemma DisplayModel()
    ensures Display(Model("Pet", [Field("a", "a", Int(1)), Field("b", "b", Str("x"))])) == "a=1 b='x'"
  {
  }

  /** One byte inside Python's `repr` of a bytes object quoted with `q`. */
  function EscapeByte(b: byte, q: char): (r: string)
    requires q == '\'' || q == '"'
    ensures |r| > 0 && forall i :: 0 <= i < |r| ==> ' ' <= r[i] <= '~'
  {
    if b == '\\' as int then "\\\\"
    else if b == q as int then ['\\', q]
    else if b == 9 then "\\t"
    else if b == 10 then "\\n"
    else if b == 13 then "\\r"
    else if b < 32 || b >= 127 then ['\\', 'x', Hex(b / 16), Hex(b % 16)]
    else [b as char]
  }

  function EscapeBytes(bs: seq<byte>, q: char): string
    requires q == '\'' || q == '"'
  {
    if |bs| == 0 then "" else EscapeByte(bs[0], q) + EscapeBytes(bs[1..], q)
  }

  /** Python's `repr(b)` for bytes: `b` and single quotes unless the data
      holds a single quote and no double quote. */
  function BytesRepr(bs: seq<byte>): (r: string)
    ensures |r| >= 3 && r[0] == 'b'
  {
    var q := if 39 in bs && 34 !in bs then '"' else '\'';
    "b" + [q] + EscapeBytes(bs, q) + [q]
  }

  /** The repr of any bytes object is printable ASCII. */
  lemma {:induction false} EscapeBytesAscii(bs: seq<byte>, q: char)
    requires q == '\'' || q == '"'
    ensures forall i :: 0 <= i < |EscapeBytes(bs, q)| ==> ' ' <= EscapeBytes(bs, q)[i] <= '~'
  {
    if |bs| > 0 {
      EscapeBytesAscii(bs[1..], q);
      var a, b := EscapeByte(bs[0], q), EscapeBytes(bs[1..], q);
      assert EscapeBytes(bs, q) == a + b;
      forall i | 0 <= i < |a + b| ensures ' ' <= (a + b)[i] <= '~' {
        if i >= |a| { assert (a + b)[i] == b[i - |a|]; }
      }
    }
  }

  /** A byte from 0x80 up is written as a `\x` escape. */
  lemma BytesReprHigh()
    ensures BytesRepr([255]) == "b'\\xff'"
  {
    assert Hex(15) == 'f';
    assert EscapeByte(255, '\'') == "\\xff";
    assert EscapeBytes([255], '\'') == EscapeByte(255, '\'') + EscapeBytes([], '\'');
  }

  // ---------------------------------------------------------------------
  // Python equality
  // ---------------------------------------------------------------------

  predicate IsNumber(v: Value)
  {
    v.Bool? || v.Int?
  }

  /** A bool is the integer 0 or 1. */
  function NumberOf(v: Value): int
    requires IsNumber(v)
  {
    if v.Bool? then (if v.b then 1 else 0) else v.i
  }

  /** Python's `a == b` on call-time values. A member of a mixed-in enum
      (`class Color(str, Enum)`) compares as its value; other enum members
      only equal themselves. Booleans equal the integers 0 and 1. Dicts are
      equal when they have the same keys with equal values, in any order; models
      when they are of one class with equal fields. */
  predicate PyEq(a: Value, b: Value)
    decreases a, b
  {
    if a.Enum? && a.mixin then PyEq(a.value, b)
    else if b.Enum? && b.mixin then PyEq(a, b.value)
    else if IsNumber(a) && IsNumber(b) then NumberOf(a) == NumberOf(b)
    else match a
      case Null => b.Null?
      case Str(s) => b.Str? && b.s == s
      case Raw(bs) => b.Raw? && b.bytes == bs
      case Enum(c, m, _, _) => b.Enum? && b.cls == c && b.member == m
      case List(xs) =>
        b.List? && |xs| == |b.items| && forall i | 0 <= i < |xs| :: PyEq(xs[i], b.items[i])
      case Dict(d) =>
        b.Dict?
        && (forall i | 0 <= i < |d| :: EntryIn(d[i], b.entries))
        && (forall j | 0 <= j < |b.entries| :: b.entries[j].alias in Keys(d))
      case Model(c, f) =>
        b.Model? && b.cls == c && |f| == |b.fields|
        && forall i | 0 <= i < |f| :: f[i].name == b.fields[i].name && PyEq(f[i].value, b.fields[i].value)
      case _ => false
  }

  /** Some entry of `e` has the key of the dict entry `f` and a value equal to its value. */
  predicate EntryIn(f: Field, e: seq<Field>)
    decreases f, e
  {
    |e| > 0 && ((e[0].alias == f.alias && PyEq(f.value, e[0].value)) || EntryIn(f, e[1..]))
  }

  lemma {:induction false} EntryInAt(f: Field, e: seq<Field>, i: nat)
    requires i < |e| && e[i].alias == f.alias && PyEq(f.value, e[i].value)
    ensures EntryIn(f, e)
    decreases i
  {
    if i > 0 {
      EntryInAt(f, e[1..], i - 1);
    }
  }

  /** Comparing with a mixed-in enum member is comparing with its value. */
  lemma {:induction false} PyEqUnwrapsRight(a: Value, b: Value)
    requires b.Enum? && b.mixin
    ensures PyEq(a, b) == PyEq(a, b.value)
    decreases a
  {
    if a.Enum? && a.mixin {
      PyEqUnwrapsRight(a.value, b);
    }
  }

  /** Every value equals itself, so `==` holds wherever the values are the same. */
  lemma {:induction false} PyEqRefl(v: Value)
    ensures PyEq(v, v)
    decreases v
  {
    match v
    case Enum(_, _, inner, mixin) =>
      if mixin {
        PyEqUnwrapsRight(inner, v);
        PyEqRefl(inner);
      }
    case List(xs) =>
      forall i | 0 <= i < |xs| ensures PyEq(xs[i], xs[i]) {
        PyEqRefl(xs[i]);
      }
    case Dict(d) =>
      forall i | 0 <= i < |d| ensures EntryIn(d[i], d)
      {
        PyEqRefl(d[i].value);
        EntryInAt(d[i], d, i);
      }
      forall j | 0 <= j < |d| ensures d[j].alias in Keys(d) {
        assert Keys(d)[j] == d[j].alias;
      }
    case Model(_, f) =>
      forall i | 0 <= i < |f| ensures f[i].name == f[i].name && PyEq(f[i].value, f[i].value) {
        PyEqRefl(f[i].value);
      }
    case _ =>
  }

  /** `False == 0`, `True == 1`, and a str-mixed enum member equals its value,
      while a plain enum member does not. */
  lemma PyEqExamples(c: string, m: string, s: string)
    ensures PyEq(Bool(false), Int(0)) && PyEq(Bool(true), Int(1)) && !PyEq(Bool(true), Int(2))
    ensures PyEq(Enum(c, m, Str(s), true), Str(s)) && PyEq(Str(s), Enum(c, m, Str(s), true))
    ensures !PyEq(Enum(c, m, Str(s), false), Str(s))
  {
  }

  /** Dicts compare regardless of key order. */
  lemma DictOrderIgnored()
    ensures PyEq(Dict([Entry("a", Int(1)), Entry("b", Int(2))]), Dict([Entry("b", Int(2)), Entry("a", Int(1))]))
  {
    var d := [Entry("a", Int(1)), Entry("b", Int(2))];
    var e := [Entry("b", Int(2)), Entry("a", Int(1))];
    EntryInAt(d[0], e, 1);
    EntryInAt(d[1], e, 0);
    assert Keys(d) == ["a", "b"];
  }

  /** `v in values` on a tuple: some element compares equal to `v`. */
  predicate PyIn(v: Value, values: seq<Value>)
  {
    exists u | u in values :: PyEq(u, v)
  }

  /** A value listed in the tuple is found in it. */
  lemma PyInListed(v: Value, values: seq<Value>)
    requires v in values
    ensures PyIn(v, values)
  {
    PyEqRefl(v);
  }

  /** An integer argument is written in decimal, a string argument as itself. */
  lemma DisplayScalars(i: int, s: string)
    ensures Display(Int(i)) == IntToString(i)
    ensures Display(Str(s)) == s
  {
  }
}
