/** The parameter markers a declared API method uses as keyword defaults
    (`item_id: int = PathParameter(alias="id")`). Each is a pydantic
    `FieldInfo` that also records where the value is sent. */
module Parameters {
  import opened Strings
  import opened Values
  import opened Constants

  /** The marker class of a `FieldInfo`, when it is one of the library's. */
  datatype Marker =
    | LimaParam(loc: Location)
    | PathParam
    | QueryParam(modelDumpMode: string)
    | BodyParam
    | HeaderParam
  {
    /** The `location` attribute every `LimaParameter` carries. */
    function Location(): (r: Location)
      ensures this.PathParam? ==> r == PATH
      ensures this.QueryParam? ==> r == QUERY
      ensures this.BodyParam? ==> r == BODY
      ensures this.HeaderParam? ==> r == HEADER
      ensures this.LimaParam? ==> r == this.loc
    {
      match this
      case LimaParam(l) => l
      case PathParam => PATH
      case QueryParam(_) => QUERY
      case BodyParam => BODY
      case HeaderParam => HEADER
    }
  }

  /** The part of a pydantic `FieldInfo` the pipeline reads: the two aliases,
      the default (`None` here stands for pydantic's "undefined" sentinel,
      `Some(Null)` for an explicit Python None), and the marker, absent for a
      plain `Field(...)`. */
  datatype FieldInfo = FieldInfo(
    alias: Option<string>,
    serializationAlias: Option<string>,
    default: Option<Value>,
    marker: Option<Marker>)

  /** `LimaParameter(location, **kwargs)` */
  function LimaParameter(location: Location, alias: Option<string> := None,
                         serializationAlias: Option<string> := None,
                         default: Option<Value> := None): (f: FieldInfo)
    ensures f.marker.Some? && f.marker.value.Location() == location
    ensures f.alias == alias && f.serializationAlias == serializationAlias && f.default == default
  {
    FieldInfo(alias, serializationAlias, default, Some(LimaParam(location)))
  }

  /** `PathParameter(**kwargs)` */
  function PathParameter(alias: Option<string> := None, serializationAlias: Option<string> := None,
                         default: Option<Value> := None): (f: FieldInfo)
    ensures f.marker.Some? && f.marker.value.Location() == PATH
    ensures f.alias == alias && f.serializationAlias == serializationAlias && f.default == default
  {
    FieldInfo(alias, serializationAlias, default, Some(PathParam))
  }

  /** `QueryParameter(model_dump_mode="dict", **kwargs)` */
  function QueryParameter(modelDumpMode: string := "dict", alias: Option<string> := None,
                          serializationAlias: Option<string> := None,
                          default: Option<Value> := None): (f: FieldInfo)
    ensures f.marker == Some(QueryParam(modelDumpMode)) && f.marker.value.Location() == QUERY
    ensures f.alias == alias && f.serializationAlias == serializationAlias && f.default == default
  {
    FieldInfo(alias, serializationAlias, default, Some(QueryParam(modelDumpMode)))
  }

  /** `BodyParameter(*args, **kwargs)`: the positional arguments are accepted
      and dropped. */
  function BodyParameter(args: seq<Value>, alias: Option<string> := None,
                         serializationAlias: Option<string> := None,
                         default: Option<Value> := None): (f: FieldInfo)
    ensures f.marker.Some? && f.marker.value.Location() == BODY
    ensures f.alias == alias && f.serializationAlias == serializationAlias && f.default == default
  {
    FieldInfo(alias, serializationAlias, default, Some(BodyParam))
  }

  /** `HeaderParameter(*args, **kwargs)`: likewise drops positional arguments. */
  function HeaderParameter(args: seq<Value>, alias: Option<string> := None,
                           serializationAlias: Option<string> := None,
                           default: Option<Value> := None): (f: FieldInfo)
    ensures f.marker.Some? && f.marker.value.Location() == HEADER
    ensures f.alias == alias && f.serializationAlias == serializationAlias && f.default == default
  {
    FieldInfo(alias, serializationAlias, default, Some(HeaderParam))
  }

  /** A positional argument given to `BodyParameter` or `HeaderParameter` is
      not a default: the marker is the same as without it. */
  lemma PositionalArgsDiscarded(args: seq<Value>, alias: Option<string>)
    ensures BodyParameter(args, alias) == BodyParameter([], alias)
    ensures HeaderParameter(args, alias) == HeaderParameter([], alias)
    ensures BodyParameter(args, alias).default == None
  {
  }

  /** The default dump mode of `QueryParameter` is the DICT mode. */
  lemma QueryParameterDefaultMode()
    ensures DumpModeOf(QueryParameter().marker.value.modelDumpMode) == Some(DICT)
  {
  }

  /** The `DUMP_*` class constants of `QueryParameter`. */
  const DUMP_DICT: string := "dict"
  const DUMP_DICT_NONE: string := "dict_none"
  const DUMP_JSON: string := "json"
  const DUMP_JSON_NONE: string := "json_none"

  /** Each `DUMP_*` constant equals the value of the `DumpMode` member of the
      same name, so either spelling selects the same mode. */
  lemma DumpConstantsMatchModes()
    ensures DumpModeOf(DUMP_DICT) == Some(DICT)
    ensures DumpModeOf(DUMP_DICT_NONE) == Some(DICT_NONE)
    ensures DumpModeOf(DUMP_JSON) == Some(JSON)
    ensures DumpModeOf(DUMP_JSON_NONE) == Some(JSON_NONE)
  {
  }
}
