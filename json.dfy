/** The OpenAPI document as `json.load` returns it: None, bools, ints,
    strings, lists and insertion-ordered dicts. */
module Json {
  import opened Strings

  datatype Json =
    | JNull
    | JBool(b: bool)
    | JInt(i: int)
    | JStr(s: string)
    | JArr(items: seq<Json>)
    | JObj(members: seq<Member>)

  /** `type(j).__name__` of a decoded JSON value. */
  function TypeName(j: Json): (r: string)
    ensures j.JNull? <==> r == "NoneType"
    ensures j.JStr? <==> r == "str"
  {
    match j
    case JNull => "NoneType"
    case JBool(_) => "bool"
    case JInt(_) => "int"
    case JStr(_) => "str"
    case JArr(_) => "list"
    case JObj(_) => "dict"
  }

  /** One key of a dict, in document order. */
  datatype Member = Member(key: string, value: Json)

  /** A measure that every sub-document is below. */
  function Size(j: Json): (r: nat)
    ensures r >= 1
  {
    match j
    case JArr(items) => 1 + SizeItems(items)
    case JObj(members) => 1 + SizeMembers(members)
    case _ => 1
  }

  function SizeItems(items: seq<Json>): nat
  {
    if |items| == 0 then 0 else Size(items[0]) + SizeItems(items[1..])
  }

  function SizeMembers(members: seq<Member>): nat
  {
    if |members| == 0 then 0 else Size(members[0].value) + SizeMembers(members[1..])
  }

  lemma {:induction false} ItemSmaller(items: seq<Json>, i: nat)
    requires i < |items|
    ensures Size(items[i]) <= SizeItems(items)
    ensures SizeItems(items[i + 1..]) < SizeItems(items[i..])
  {
    if i > 0 {
      ItemSmaller(items[1..], i - 1);
      assert items[1..][i - 1..] == items[i..];
      assert items[1..][i..] == items[i + 1..];
    } else {
      assert items[0..] == items;
      assert items[..][1..] == items[1..];
    }
  }

  lemma {:induction false} MemberSmaller(members: seq<Member>, i: nat)
    requires i < |members|
    ensures Size(members[i].value) <= SizeMembers(members)
  {
    if i > 0 {
      MemberSmaller(members[1..], i - 1);
    }
  }

  /** The keys of a dict, in order. */
  function Keys(members: seq<Member>): (r: seq<string>)
    ensures |r| == |members|
    ensures forall i :: 0 <= i < |members| ==> r[i] == members[i].key
  {
    if |members| == 0 then [] else [members[0].key] + Keys(members[1..])
  }

  /** `key in d` for a dict. */
  predicate Has(j: Json, key: string)
  {
    j.JObj? && key in Keys(j.members)
  }

  function Find(members: seq<Member>, key: string): (r: Option<Json>)
    ensures r.Some? <==> key in Keys(members)
    ensures r.Some? ==> Size(r.value) <= SizeMembers(members)
  {
    if |members| == 0 then None
    else if members[0].key == key then Some(members[0].value)
    else Find(members[1..], key)
  }

  /** `d.get(key)` on a dict: `None` for an absent key (and for anything
      that is not a dict, whose callers check that first). */
  function Get(j: Json, key: string): (r: Option<Json>)
    ensures r.Some? <==> Has(j, key)
    ensures r.Some? ==> Size(r.value) < Size(j)
  {
    if j.JObj? then Find(j.members, key) else None
  }

  /** `d.get(key, default)` where a stored JSON null counts as present. */
  function GetOr(j: Json, key: string, default: Json): (r: Json)
    ensures Has(j, key) ==> r == Get(j, key).value
    ensures !Has(j, key) ==> r == default
  {
    match Get(j, key)
    case Some(v) => v
    case None => default
  }

  /** Python truthiness of a decoded JSON value. */
  predicate Truthy(j: Json)
  {
    match j
    case JNull => false
    case JBool(b) => b
    case JInt(i) => i != 0
    case JStr(s) => s != ""
    case JArr(items) => |items| > 0
    case JObj(members) => |members| > 0
  }

  /** `repr(value)` of a decoded JSON value. */
  function PyRepr(j: Json): (r: string)
    ensures |r| > 0
  {
    match j
    case JNull => "None"
    case JBool(b) => if b then "True" else "False"
    case JInt(i) => IntToString(i)
    case JStr(s) => PyStrRepr(s)
    case JArr(items) => "[" + ReprItems(items) + "]"
    case JObj(members) => "{" + ReprMembers(members) + "}"
  }

  function ReprItems(items: seq<Json>): string
  {
    if |items| == 0 then ""
    else if |items| == 1 then PyRepr(items[0])
    else PyRepr(items[0]) + ", " + ReprItems(items[1..])
  }

  function ReprMembers(members: seq<Member>): string
  {
    if |members| == 0 then ""
    else
      var m := PyStrRepr(members[0].key) + ": " + PyRepr(members[0].value);
      if |members| == 1 then m else m + ", " + ReprMembers(members[1..])
  }

  /** `str(value)` (and an f-string field) of a decoded JSON value: a string
      is itself, everything else is its `repr`. */
  function PyStr(j: Json): (r: string)
    ensures j.JStr? ==> r == j.s
    ensures !j.JStr? ==> r == PyRepr(j)
  {
    if j.JStr? then j.s else PyRepr(j)
  }
}
