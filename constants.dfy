/** The enumerations of the library: where a parameter goes on the wire, how a
    model argument is dumped into the query, and what happens to undeclared
    keyword arguments. */
module Constants {
  import opened Strings

  /** Where a bound parameter is sent. */
  datatype Location = PATH | QUERY | BODY | HEADER | FILE
  {
    /** The enum member's string value (`Location` mixes in `str`). */
    function Value(): (r: string)
      ensures r in ["PATH", "QUERY", "BODY", "HEADER", "FILE"]
    {
      match this
      case PATH => "PATH"
      case QUERY => "QUERY"
      case BODY => "BODY"
      case HEADER => "HEADER"
      case FILE => "FILE"
    }
  }

  /** Distinct members have distinct string values. */
  lemma LocationValueInjective(a: Location, b: Location)
    requires a.Value() == b.Value()
    ensures a == b
  {
  }

  /** How a model argument bound to a query parameter is serialised. */
  datatype DumpMode = DICT | DICT_NONE | JSON | JSON_NONE
  {
    /** The member's string value (`DumpMode` mixes in `str`, so a member
        compares equal to this string). */
    function Value(): (r: string)
    {
      match this
      case DICT => "dict"
      case DICT_NONE => "dict_none"
      case JSON => "json"
      case JSON_NONE => "json_none"
    }

    /** DICT and JSON drop None-valued fields; the _NONE variants keep them. */
    predicate ExcludesNone()
    {
      this == DICT || this == JSON
    }

    /** DICT and DICT_NONE merge the model's fields into the query; JSON and
        JSON_NONE store one JSON text. */
    predicate MergesFields()
    {
      this == DICT || this == DICT_NONE
    }
  }

  /** The member whose string value is `s`, if there is one. A dump mode held
      as a plain string ("dict") and as the enum member compare equal in
      Python, so the membership tests over members accept either. */
  function DumpModeOf(s: string): (r: Option<DumpMode>)
    ensures r.Some? <==> s in ["dict", "dict_none", "json", "json_none"]
    ensures r.Some? ==> r.value.Value() == s
  {
    if s == "dict" then Some(DICT)
    else if s == "dict_none" then Some(DICT_NONE)
    else if s == "json" then Some(JSON)
    else if s == "json_none" then Some(JSON_NONE)
    else None
  }

  lemma DumpModeRoundTrip(m: DumpMode)
    ensures DumpModeOf(m.Value()) == Some(m)
  {
  }

  /** The versions of the four modes with respect to keeping None: exactly
      the two _NONE modes keep it. */
  lemma DumpModeNoneHandling(m: DumpMode)
    ensures m.ExcludesNone() <==> m.Value() in ["dict", "json"]
    ensures m.MergesFields() <==> m.Value() in ["dict", "dict_none"]
  {
  }

  /** What to do with keyword arguments no parameter declares. */
  datatype KwargsMode = IGNORE | KW_QUERY | KW_BODY
  {
    function Value(): string
    {
      match this
      case IGNORE => "ignore"
      case KW_QUERY => "query"
      case KW_BODY => "body"
    }
  }
}
