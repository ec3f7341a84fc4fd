# lima-api, modelled in Dafny

lima-api is a declarative HTTP client library. A client class derives from
`LimaApi` (async) or `SyncLimaApi` (sync). Each API method is declared as a
typed stub under a verb decorator (`@lima_api.get("/pet/{petId}")`).

At registration time the decorator classifies the stub's keyword-only
parameters into binding tables:

- query parameters
- path parameters
- at most one body parameter
- headers
- files

At call time the runtime does three things:

- turns the call's keyword arguments into a request: query map, body,
  final URL, headers, and a `json=` or `data=` body argument;
- sends the request;
- resolves the response status to a decoded return value or to a
  `LimaException` subclass.

Two retry policies decide whether a failed call is retried: honouring
`Retry-After`, and auto-login.

The second half of the repository is a code generator. It reads an OpenAPI
document and does two things:

- turns `components/schemas` into pydantic model, enum and alias text
  (`SchemaParser`);
- turns `paths` into one `ApiClient` class with one decorated stub per
  operation, plus one exception class per non-success response
  (`ClientGenerator`, `LimaFunction`).

## How the model is organised

There is one Dafny module per source file, plus three helper modules.

- `Strings`: Python string operations on `seq<char>`, such as `join`,
  `replace`, `str(int)`, `int(str)` and `repr(str)`.
- `Json`: the document as `json.load` returns it, with insertion-ordered
  dicts.
- `Values`: the Python values a call passes, and pydantic's
  `model_dump`/`model_dump_json` output.
- `Constants` and `Parameters`: the enums and the parameter markers.
- `Exceptions`: `LimaException` and its `repr`. The module also holds the
  `Result` type, which carries every Python exception the core raises:
  `KeyError`, `TypeError`, `ValueError`, `IndexError`, `AttributeError`,
  `NotImplementedError`, `RecursionError`, or a raised `LimaException`.
- `Utils`:
  - `get_mappings` is a classifier function (`Mappings`), proved equal to
    a method that keeps the source's loop (`GetMappings`).
  - Like `get_mappings`, `get_request_params` and `get_final_url` each
    come as a function and a looping method.
  - `get_body` and `parse_data` are functions.
- `Core`:
  - `LimaApiBase` is a class. Its constructor sets the configuration
    fields.
  - `CreateRequest` and `CreateResponse` are methods, proved against
    `RequestFor` and `ResponseFor`.
  - The decorator is `Register` (classification at registration time)
    and `Call` (one call: build, send, resolve).
- `RetryProcessors`: the two policies as functions that return the retry
  verdict and the list of effects they perform (log, sleep, autologin
  call).
- `CaseConversion`: `camel_to_snake`, `snake_to_camel` and the OpenAPI
  type table.
- `Templates`: the three `string.Template` texts, written as
  concatenation.
- `Schemas`:
  - `SchemaParser` holds the cache of resolved refs, their order and the
    models seen. The parser is a class whose methods update those fields.
  - Each method is proved against a recursive function over a
    `ParserState` value (`ResolveRef`, `ProcessFragment`, `ParseAll`,
    `PrintUpTo`).
- `CliGen`:
  - `LimaFunction` and `ClientGenerator` are classes whose methods update
    the memoised success status, the rendered text, the models, the
    exceptions and the embedded classes.
  - Each method is proved against a function over a `Gen` or `Client`
    value.

Inputs outside the model are parameters:

- pydantic validation and JSON decoding (`Validator`, `Decoder`);
- the transport (`Transport`);
- the wall clock (`nowMicros`);
- the base retry admission (`admitted`).

## Model

| member | source | states |
|---|---|---|
| Constants.Location.Value | src/lima_api/constants.py:4-13 | Every location has one of the five string values PATH, QUERY, BODY, HEADER, FILE |
| Constants.LocationValueInjective | src/lima_api/constants.py:4-13 | Two locations with the same string value are the same location |
| Constants.DumpModeOf | src/lima_api/constants.py:16-36 | A string names a dump mode exactly when it is one of the four mode values, and the mode found has that value |
| Constants.DumpModeRoundTrip | src/lima_api/constants.py:16-36 | Looking a mode up by its own string value finds that mode |
| Constants.DumpModeNoneHandling | src/lima_api/constants.py:21-36 | Exactly "dict" and "json" drop None fields; exactly "dict" and "dict_none" merge fields into the query |
| Parameters.Marker.Location | src/lima_api/parameters.py:13-46 | Each marker class carries the location its constructor passes: PATH, QUERY, BODY or HEADER, or the given one for a bare LimaParameter |
| Parameters.LimaParameter | src/lima_api/parameters.py:13-20 | The field records the given location and keeps its alias, serialisation alias and default |
| Parameters.PathParameter | src/lima_api/parameters.py:23-25 | A path marker: location PATH, pydantic keywords kept |
| Parameters.QueryParameter | src/lima_api/parameters.py:28-36 | A query marker: location QUERY, with the dump mode stored as given |
| Parameters.BodyParameter | src/lima_api/parameters.py:39-41 | A body marker: location BODY, pydantic keywords kept |
| Parameters.HeaderParameter | src/lima_api/parameters.py:44-46 | A header marker: location HEADER, pydantic keywords kept |
| Parameters.PositionalArgsDiscarded | src/lima_api/parameters.py:39-46 | Positional arguments to BodyParameter and HeaderParameter change nothing about the field they build |
| Parameters.QueryParameterDefaultMode | src/lima_api/parameters.py:29-34 | The default dump mode of a query marker is the DICT mode |
| Parameters.DumpConstantsMatchModes | src/lima_api/parameters.py:29-32 | The four DUMP_* constants name the four dump modes |
| Exceptions.NewLimaException | src/lima_api/exceptions.py:2-5 | The exception stores the given detail, status code and content; the defaults are "Error de Lima", 0 and empty |
| Exceptions.DefaultException | src/lima_api/exceptions.py:2-5 | An exception built with no arguments has the default detail, status 0 and no content |
| Exceptions.ExceptionRepr | src/lima_api/exceptions.py:7-9 | The repr starts with the runtime class name and "(detail=", and ends with ")" |
| Exceptions.ReprIgnoresContent | src/lima_api/exceptions.py:7-9 | The response content never affects the repr |
| Exceptions.ReprOfPlainDetail | src/lima_api/exceptions.py:7-9 | For a detail of printable characters other than quote and backslash, the repr is `Class(detail='<detail>', status_code=<n>)` |
| Strings.ParseIntRoundTrip | src/lima_api/retry_processors.py:21 | `int(str(n)) == n` for every integer, the parse `get_sleep_seconds` applies to the header |
| Strings.IntToString | src/lima_api/code_generator/cli_gen.py:150 | `str` of an integer is non-empty and starts with "-" exactly for a negative number |
| Strings.PyStrRepr | src/lima_api/exceptions.py:7-9 | `repr` of a string is at least two characters, quoted with single quotes when the text has none; control characters, U+007F–U+00A0 and U+00AD are written as `\x` escapes |
| Strings.ReprEscapesLatin1 | src/lima_api/exceptions.py:7-9 | U+0080 and U+00A0 are written as `\x80` and `\xa0` |
| Strings.ReplaceCharRemoves | src/lima_api/core.py:252 | Removing every space leaves no space |
| Values.DumpFieldsKeeps | src/lima_api/utils.py:121-126 | A field survives the dump under its key (the alias when dumping by alias) unless it is None and None fields are excluded |
| Values.DumpFieldsDropsNone | src/lima_api/utils.py:121-126 | A None-excluding dump has no entry for a key all of whose fields are None |
| Values.DictSetNew | src/lima_api/utils.py:130-136 | Storing under a new key appends it at the end of the dict |
| Values.DictSetExisting | src/lima_api/utils.py:130-136 | Storing under an existing key keeps the key order |
| Values.DictUpdateGet | src/lima_api/utils.py:121-126 | After `dict.update`, a key of the update holds its last value there, and any other key keeps its old value |
| Values.DictUpdateDistinct | src/lima_api/utils.py:121-126 | An updated dict still has distinct keys |
| Values.DisplayScalars | src/lima_api/utils.py:285 | An integer argument is written into the URL in decimal, a string argument as itself |
| Values.DisplayModel | src/lima_api/utils.py:285 | `str` of a model is its fields as `name=repr(value)` separated by single spaces |
| Values.JsonEscapeChar | src/lima_api/utils.py:129-130 | A character inside a JSON string never comes out as a control character, and a printable character other than the quote and the backslash comes out as itself |
| Values.JsonEscapeNoControl | src/lima_api/utils.py:129-130 | The escaped text of a JSON string holds no raw control character |
| Values.JsonEscapePlain | src/lima_api/utils.py:129-130 | Text without quotes, backslashes or control characters is written unchanged |
| Values.JsonEscapesTabAndReturn | src/lima_api/utils.py:129-130 | A tab and a carriage return are written as `\t` and `\r` |
| Values.EscapeByte | src/lima_api/utils.py:285 | Each byte of a bytes `repr` is written as printable ASCII |
| Values.BytesRepr | src/lima_api/utils.py:285 | `repr` of bytes starts with `b` and is at least three characters |
| Values.EscapeBytesAscii | src/lima_api/utils.py:285 | The escaped body of a bytes `repr` is printable ASCII whatever the bytes |
| Values.BytesReprHigh | src/lima_api/utils.py:285 | The byte 0xff is written as `\xff` |
| Values.PyEqUnwrapsRight | src/lima_api/utils.py:113 | Under Python `==`, a str- or int-mixed enum member compares as its value |
| Values.PyEqRefl | src/lima_api/utils.py:113 | Python `==` holds between a value and itself |
| Values.PyEqExamples | src/lima_api/utils.py:113 | `False == 0` and `True == 1` but not `True == 2`; a mixed enum member equals its value, a plain one does not |
| Values.DictOrderIgnored | src/lima_api/utils.py:113 | Two dicts with the same entries in a different order are equal |
| Values.PyInListed | src/lima_api/utils.py:113 | A value listed among the undefined values is `in` them |
| Json.GetOr | src/lima_api/code_generator/cli_gen.py:206 | `get(key, default)` gives the stored value when the key is present, even a null, and the default otherwise |
| Json.PyStr | src/lima_api/code_generator/schemas.py:19-27 | `str` of a decoded string is the string, and of any other value its `repr` |
| CaseConversion.SplitJoin | src/lima_api/code_generator/utils.py:34 | Splitting on a separator and joining with it gives the input back |
| CaseConversion.MappedType | src/lima_api/code_generator/utils.py:5-19 | Exactly the five OpenAPI type names have a Python type, and each maps to its enum member's Python type |
| CaseConversion.GroupsCover | src/lima_api/code_generator/utils.py:21 | Every group the `([A-Za-z0-9][a-z]*)` scan finds is a letter or digit followed by lowercase letters, and the groups together are exactly the letters and digits of the input |
| CaseConversion.CamelToSnakeShape | src/lima_api/code_generator/utils.py:25-27 | The result is lowercase words joined by single underscores: no leading, trailing or doubled underscore |
| CaseConversion.CamelToSnakeKeepsAlnums | src/lima_api/code_generator/utils.py:25-27 | The regex groups, before lower-casing, are together exactly the letters and digits of the space-free input, in order |
| CaseConversion.CamelToSnakeIdempotent | src/lima_api/code_generator/utils.py:25-27 | Converting an already converted name changes nothing |
| CaseConversion.PetIdExample | src/lima_api/code_generator/utils.py:25-27 | "petId" becomes "pet_id" |
| CaseConversion.PetPathExample | src/lima_api/code_generator/utils.py:25-27 | "/pet/{petId}" becomes "pet_pet_id": separators start new words |
| CaseConversion.Capitalize | src/lima_api/code_generator/utils.py:33 | An empty segment fails as `x[0]` does; otherwise only the first character is upper-cased |
| CaseConversion.CapitalizeAll | src/lima_api/code_generator/utils.py:32-35 | The join fails with IndexError exactly when some segment is empty |
| CaseConversion.Split | src/lima_api/code_generator/utils.py:34 | `split` gives at least one piece, and no piece contains the separator |
| CaseConversion.CapitalizedParts | src/lima_api/code_generator/utils.py:32-35 | Without empty segments, each part is its segment capitalised |
| CaseConversion.SnakeToCamel | src/lima_api/code_generator/utils.py:30-35 | The conversion fails exactly when the text, with "-" and " " read as "_", has an empty segment |
| CaseConversion.SnakeToCamelNoSeparators | src/lima_api/code_generator/utils.py:30-35 | A successful result contains no "_", "-" or " " |
| CaseConversion.SnakeToCamelSegments | src/lima_api/code_generator/utils.py:30-35 | With no empty segment, the result is the concatenation of the segments, each capitalised |
| Templates.BaseClass | src/lima_api/code_generator/templates.py:3-7 | A class text starts and ends with a newline |
| Templates.SqueezeNoBlankLine | src/lima_api/code_generator/schemas.py:35-36 | The blank-line squeeze leaves text without a blank line unchanged |
| Utils.Placeholders | src/lima_api/utils.py:152 | Every placeholder found is a non-empty name that occurs in braces in the path |
| Utils.PlaceholdersFromSound | src/lima_api/utils.py:152 | Every group the scan finds from any index on is a non-empty name that occurs in braces in the text |
| Utils.NoBraceNoPlaceholders | src/lima_api/utils.py:152 | A path without `{` has no placeholders |
| Utils.PlaceholderAtEnd | src/lima_api/utils.py:152 | A single `{name}` closing a brace-free prefix is found as exactly that name |
| Utils.TemplatePlaceholders | src/lima_api/utils.py:152 | For a path that alternates brace-free text with `{name}` placeholders (names non-empty, without `}` or newline), the placeholders found are exactly the names, in order |
| Utils.ApiName | src/lima_api/utils.py:168-173 | The wire name is the serialisation alias, else the alias, else the parameter name |
| Utils.ClsOf | src/lima_api/utils.py:175-180 | The class is the first type argument when the annotation has any, else the annotation |
| Utils.WrapOf | src/lima_api/utils.py:179 | The wrap is the whole annotation exactly when it has type arguments |
| Utils.DefaultOf | src/lima_api/utils.py:183-186 | A marker's default unless it is undefined, or the plain default; none without a default |
| Utils.Classify | src/lima_api/utils.py:168-205 | The binding keeps the keyword name and the wire name |
| Utils.MarkerWins | src/lima_api/utils.py:192-194 | An explicit LimaParameter marker decides the location, whatever the annotation |
| Utils.ModelClassification | src/lima_api/utils.py:197-201 | A model class goes to the body, except under GET, where it goes to the query with dump mode "dict" |
| Utils.ContainerClassification | src/lima_api/utils.py:202-203 | A list, tuple or dict class goes to the query under GET and to the body otherwise |
| Utils.ScalarClassification | src/lima_api/utils.py:192-205 | Any other class goes to the path when its wire name is a placeholder, else to the query |
| Utils.Route | src/lima_api/utils.py:207-220 | Filing a binding fails exactly when it is a second body |
| Utils.Missing | src/lima_api/utils.py:225 | The missing names are exactly the placeholders no path binding claims, each listed once |
| Utils.ScanErrorSticks | src/lima_api/utils.py:161-220 | An error raised by one parameter is the outcome for the whole list |
| Utils.ScanAllSpec | src/lima_api/utils.py:161-220 | The scan succeeds exactly when every bound parameter is keyword-only and at most one is a body; then each table lists its bindings in declaration order |
| Utils.MappingsOkIff | src/lima_api/utils.py:140-231 | Registration succeeds exactly when every parameter is keyword-only and typed, at most one is a body, and every placeholder has a path binding |
| Utils.MappingsTables | src/lima_api/utils.py:207-231 | On success, the five tables are the bindings of each location, in declaration order |
| Utils.PositionalRejected | src/lima_api/utils.py:161-163 | The first positional parameter reached raises the positional-parameters ValueError |
| Utils.SecondBodyRejected | src/lima_api/utils.py:211-213 | A second body parameter raises "too many body params" |
| Utils.UntypedReported | src/lima_api/utils.py:222-223 | Untyped parameters raise a TypeError naming all of them, in declaration order |
| Utils.MissingPathReported | src/lima_api/utils.py:225-229 | An unbound placeholder raises a LimaException whose detail names it |
| Utils.GetMappings | src/lima_api/utils.py:140-231 | The looping classifier computes exactly the reference classification |
| Utils.CheckScan | src/lima_api/utils.py:222-231 | The checks after the loop give the reference outcome |
| Utils.ScanStep | src/lima_api/utils.py:161-220 | One iteration of the loop is the reference step |
| Utils.ArgumentOf | src/lima_api/utils.py:110-112 | The argument is the keyword argument when passed, else the default |
| Utils.EnumValues | src/lima_api/utils.py:134 | Each item is replaced by its `.value` when it is an enum member, and kept otherwise |
| Utils.RequestParamsOkIff | src/lima_api/utils.py:106-137 | Building the query map succeeds exactly when every binding has an argument or a default; the map then has distinct keys |
| Utils.FirstMissingReported | src/lima_api/utils.py:107-109 | The first binding with neither argument nor default raises "required argument missing <name>" |
| Utils.UndefinedOmitted | src/lima_api/utils.py:113-114 | An argument that equals an undefined value under Python `==` adds nothing; any other argument is encoded |
| Utils.UndefinedByPythonEquality | src/lima_api/utils.py:113-114 | With undefined values `(None, "", 0)`, `False` is omitted; with `(None, "")`, a str-mixed enum member whose value is "" is omitted |
| Utils.PlainStored | src/lima_api/utils.py:135-136 | A plain argument is stored under its wire name, and no other key changes |
| Utils.DictModeMerges | src/lima_api/utils.py:119-128 | In the dict modes a model's by-alias dump is merged in; under DICT, a key whose fields are all None is left as it was |
| Utils.JsonModeStores | src/lima_api/utils.py:129-130 | In the json modes the model's compact JSON text (control characters escaped) is stored under the wire name, without None fields under JSON |
| Utils.EnumEncoded | src/lima_api/utils.py:131-134 | For an enum class, a member is sent as its value and a list as its items' values |
| Utils.GetRequestParams | src/lima_api/utils.py:90-137 | The looping builder computes exactly the reference query map or error |
| Utils.RequestErrorSticks | src/lima_api/utils.py:106-109 | Once a binding raises, the rest of the loop does not change the outcome |
| Utils.AddParam | src/lima_api/utils.py:108-136 | One pass of the loop is the reference step |
| Utils.Body | src/lima_api/utils.py:234-272 | No body without a body binding; a missing argument is a KeyError; a body is always a dict or a list; a non-model argument is sent as is when it is a list or dict, else wrapped under its wire name |
| Utils.OptionalModelNone | src/lima_api/utils.py:249-252 | None for an optional model is no body, and nothing is validated |
| Utils.ModelBodyDumped | src/lima_api/utils.py:253-259 | A validated model is sent as its by-alias dump without None fields; a validated list of models as the list of their dumps |
| Utils.DumpModels | src/lima_api/utils.py:259 | Dumping a list succeeds only for a list of models, giving one dict per model |
| Utils.FinalUrlOkIff | src/lima_api/utils.py:284-286 | Rewriting the URL succeeds exactly when every path binding has an argument |
| Utils.SubstituteOne | src/lima_api/utils.py:285 | The braced wire name is replaced by the argument's `str` (a model as its space-separated fields) |
| Utils.NoPathBindings | src/lima_api/utils.py:284-286 | Without path bindings the URL is unchanged |
| Utils.GetFinalUrl | src/lima_api/utils.py:275-286 | The looping rewrite computes exactly the reference URL or error |
| Utils.UrlErrorSticks | src/lima_api/utils.py:284-285 | Once a path argument is missing, the rest of the loop does not change the outcome |
| Utils.ParseData | src/lima_api/utils.py:60-87 | No class gives None; empty data under an optional union gives None; a bytes class gives the data; Any never fails; any failure is the decoder's |
| Utils.ParseDataDecodes | src/lima_api/utils.py:78-87 | A successful decode is the result; under Any a failed decode gives the raw data |
| Core.MergeHeaders | src/lima_api/core.py:91-95 | The headers are the union of client and call headers, and the call's value wins for a key in both |
| Core.UsedNames | src/lima_api/core.py:82-83 | The claimed names are exactly the keyword names of the path and query bindings |
| Core.BodyKwargs | src/lima_api/core.py:84 | The body sees exactly the keyword arguments no path or query binding claims, with their values |
| Core.LimaApiBase.constructor | src/lima_api/core.py:28-53 | Every configuration field is stored, a missing mapping or client kwargs become empty, and there is no client yet |
| Core.LimaApiBase.AttachClient | src/lima_api/core.py:220-224 | Installing a client changes the client and no other field |
| Core.LimaApiBase.ClientCheck | src/lima_api/core.py:68-74 | The check passes exactly when a sync call meets a sync client or an async call meets an async client |
| Core.LimaApiBase.NoClientFails | src/lima_api/core.py:68-69 | Without a client the call fails with "Cliente no inicializado" |
| Core.LimaApiBase.ClientKindChecked | src/lima_api/core.py:71-74 | A call on the wrong kind of client fails with the matching message; a built request implies the kinds agree |
| Core.LimaApiBase.RequestContents | src/lima_api/core.py:76-111 | A built request has the verb, the rewritten URL, the query map, the merged headers (call headers win), the call's timeout or else the client's, a `json=` body exactly when the content type is JSON, and the body from the unclaimed keyword arguments |
| Core.LimaApiBase.ClaimedKwargsNotInBody | src/lima_api/core.py:82-85 | A body bound to a name a query binding also claims is a KeyError |
| Core.LimaApiBase.CreateRequest | src/lima_api/core.py:55-111 | The request-building method computes exactly the reference request or error |
| Core.LimaApiBase.BuildRequest | src/lima_api/core.py:82-111 | The body, URL and header steps give the reference request |
| Core.LimaApiBase.EffectiveMapping | src/lima_api/core.py:121-124 | The mapping covers the client's and the call's codes, and the call's class wins |
| Core.LimaApiBase.ResponseOutcomes | src/lima_api/core.py:113-143 | The success status is decoded; another status raises its mapped class with "Http Code in response_mapping" (call mapping first), else the default class with "Http Code not in response_mapping"; the exception carries the status and content |
| Core.LimaApiBase.OutOfTheBoxResolution | src/lima_api/core.py:113-143 | With the defaults, 200 is decoded and every other status raises LimaException |
| Core.LimaApiBase.CreateResponse | src/lima_api/core.py:113-143 | The method computes exactly the reference outcome |
| Core.Register | src/lima_api/core.py:252-258 | The registered path has no spaces; registration succeeds exactly when the space-free path and the parameters classify, and fails with the same error |
| Core.RegisterKeepsPlainPath | src/lima_api/core.py:252 | A path without spaces is registered as written |
| Core.Call | src/lima_api/core.py:294-322 | One call of a registered method computes exactly the reference outcome: build, send, resolve |
| Core.TransportErrorWrapped | src/lima_api/core.py:310-313 | A transport error becomes a LimaException with the connection message and status 0, and no response is decoded |
| RetryProcessors.IndexOfName | src/lima_api/retry_processors.py:24 | A found day or month name equals the lower-cased input; an absent name means no entry matches |
| RetryProcessors.IndexOfNameFirst | src/lima_api/retry_processors.py:24 | A name is found at the first position holding its lower-cased form |
| RetryProcessors.ParseHttpDate | src/lima_api/retry_processors.py:15-24 | A parsed IMF-fixdate is a valid date and is 29 characters long |
| RetryProcessors.FormatHttpDate | src/lima_api/retry_processors.py:15 | The formatted date is 29 characters long |
| RetryProcessors.HttpDateRoundTrip | src/lima_api/retry_processors.py:15-24 | Parsing the formatted text of a valid date gives that date back |
| RetryProcessors.TruncSeconds | src/lima_api/retry_processors.py:25 | `int()` of a duration truncates toward zero |
| RetryProcessors.SleepSeconds | src/lima_api/retry_processors.py:19-26 | The delay is never below the minimum; an integer header gives max(value, minimum); an unparsable header gives the minimum |
| RetryProcessors.DateDelay | src/lima_api/retry_processors.py:23-25 | For an HTTP-date header, the delay is the whole seconds until that instant when that is at least the minimum, and the minimum for an instant already past |
| RetryProcessors.IntegerHeaderHonoured | src/lima_api/retry_processors.py:21 | A decimal header n waits max(n, minimum) |
| RetryProcessors.OneHundredTwenty | src/lima_api/retry_processors.py:21 | "Retry-After: 120" waits 120 seconds whenever the minimum is at most 120 |
| RetryProcessors.RetryAfterDoRetry | src/lima_api/retry_processors.py:28-40 | The verdict is the base admission; only an admitted sync client sleeps: logging and sleeping the header's delay, or sleeping the minimum without a header |
| RetryProcessors.RetryAfterProcess | src/lima_api/retry_processors.py:42-49 | The async path always retries, after the header's delay (logged) or the minimum |
| RetryProcessors.RetryAfterSleepsAtLeastMinimum | src/lima_api/retry_processors.py:19-49 | Every sleep on either path lasts at least the minimum |
| RetryProcessors.AutoLoginDoRetry | src/lima_api/retry_processors.py:59-66 | Not admitted means no retry; an async autologin or none retries without a call; a sync autologin is called and its result is the verdict |
| RetryProcessors.AutoLoginProcess | src/lima_api/retry_processors.py:68-73 | The async path retries exactly when there is an async autologin and it succeeds |
| RetryProcessors.AutoLoginRefusal | src/lima_api/retry_processors.py:59-66 | No retry exactly when not admitted, or a sync autologin fails; autologin is called exactly for an admitted sync one |
| Schemas.Insert | src/lima_api/code_generator/schemas.py:204-230 | Adding an option keeps the options a sorted set holding the old ones and the new one |
| Schemas.SortedUnique | src/lima_api/code_generator/schemas.py:242 | Two sorted option lists with the same elements are equal, so `sorted(options)` depends only on the set |
| Schemas.InsertCommutes | src/lima_api/code_generator/schemas.py:204-230 | The order in which union members are added does not change the options |
| Schemas.InsertPresent | src/lima_api/code_generator/schemas.py:204-230 | Adding an option already present changes nothing |
| Schemas.Without | src/lima_api/code_generator/schemas.py:239-240 | Removing "None" keeps exactly the other options |
| Schemas.MemberKey | src/lima_api/code_generator/schemas.py:21-27 | A non-string enum uses "OP_<choice>" upper-cased; a string choice works exactly when it snake-cases to a non-empty key, which is prefixed with the enum name when it starts with a digit; a non-string choice of a string enum fails |
| Schemas.MemberKeyIsConstantName | src/lima_api/code_generator/schemas.py:21-27 | A string member key holds only upper-case letters, digits and underscores; it starts with a letter when the snake-cased choice does not start with a digit, and, for a choice that does, when the snake-cased enum name prefixed to it starts with a letter |
| Schemas.EnumText | src/lima_api/code_generator/schemas.py:19-37 | The enum text exists exactly when every member key does |
| Schemas.AddEnum | src/lima_api/code_generator/schemas.py:39-43 | Adding to a set of enums compared by text keeps the old ones, holds one with the new text, and changes nothing when such a text is present |
| Schemas.NewSchema | src/lima_api/code_generator/schemas.py:121-129 | A fresh schema has its name and is otherwise empty |
| Schemas.SetAsAlias | src/lima_api/code_generator/schemas.py:175-179 | An alias renames to the camel-cased name and writes a TypeAlias line; it fails exactly when camel-casing does |
| Schemas.SetAsArray | src/lima_api/code_generator/schemas.py:181-187 | A list type, optional with a None default when required |
| Schemas.SetAsEnum | src/lima_api/code_generator/schemas.py:189-193 | The enum's text and type name are recorded and the name is a used model; it fails exactly when the enum text does |
| Schemas.SetAsConst | src/lima_api/code_generator/schemas.py:195-200 | A Literal of the value, with a string value quoted |
| Schemas.SetAsType | src/lima_api/code_generator/schemas.py:245-248 | The mapped Python type name |
| Schemas.FinishObject | src/lima_api/code_generator/schemas.py:158-159 | An object with neither properties nor attributes gets the "    ..." body; nothing else changes |
| Schemas.KeywordLine | src/lima_api/code_generator/schemas.py:94-101 | A title or description line is at most one line, and starts with that keyword |
| Schemas.AliasLine | src/lima_api/code_generator/schemas.py:90-93 | The alias line is present exactly when the snake-cased name differs |
| Schemas.DefaultLine | src/lima_api/code_generator/schemas.py:102-108 | There is a default line for a given default; without one, "default=None" appears exactly when the type mentions Optional |
| Schemas.FieldAliasIff | src/lima_api/code_generator/schemas.py:89-114 | A field's keywords carry the alias exactly when the snake-cased name differs |
| Schemas.FieldDefault | src/lima_api/code_generator/schemas.py:102-108 | Without a default, a field's keywords carry "default=None" exactly when its type mentions Optional |
| Schemas.ResolveRef | src/lima_api/code_generator/schemas.py:370-380 | Resolving a ref only adds to the cache and appends to `order`, and a resolved ref is cached under itself |
| Schemas.ProcessFragment | src/lima_api/code_generator/schemas.py:265-368 | Processing only adds to the cache, and a `$ref` fragment returns the cached schema of its ref |
| Schemas.ProcessScalar | src/lima_api/code_generator/schemas.py:326-357 | A const gives a Literal; a string enum of one choice gives a Literal of it, and of several an enum; otherwise the mapped type |
| Schemas.StringEnumAddsModel | src/lima_api/code_generator/schemas.py:344-352 | A string enum of several choices becomes an enum class and adds its class name to the parser's models, changing nothing on failure |
| Schemas.ProcessUnion | src/lima_api/code_generator/schemas.py:202-243 | A union only adds to the cache, and keeps every entry already there |
| Schemas.ProcessAllOf | src/lima_api/code_generator/schemas.py:275-288 | An allOf only adds to the cache, and keeps every entry already there |
| Schemas.ProcessObject | src/lima_api/code_generator/schemas.py:140-173 | An object only adds to the cache, and keeps every entry already there; with properties, a `required` that is neither absent nor None and cannot be tested with `in` fails with the TypeError of `prop in required` before any property is processed |
| Schemas.ProcessArray | src/lima_api/code_generator/schemas.py:301-325 | An array only adds to the cache, and keeps every entry already there |
| Schemas.ProcessOther | src/lima_api/code_generator/schemas.py:358-367 | A `$ref` gives the cached schema of that ref |
| Schemas.UnhashableRef | src/lima_api/code_generator/schemas.py:358-372 | A list `$ref` fails with TypeError (unhashable) where `get_ref` tests it against the cache |
| Schemas.UnhashableItems | src/lima_api/code_generator/schemas.py:302-307 | A dict `$ref` in an array's items is unhashable, and a list items `type` fails at the type-table test before a `$ref` beside it is resolved |
| Schemas.RefKey | src/lima_api/code_generator/schemas.py:370-372 | A ref is a cache key exactly when it is a string; a list or dict is unhashable (TypeError), any other value misses the cache and has no `replace` (AttributeError) |
| Schemas.UnionOptions | src/lima_api/code_generator/schemas.py:204-234 | The options stay a sorted set and keep every earlier option |
| Schemas.UnionOption | src/lima_api/code_generator/schemas.py:205-207 | An empty member adds "dict" and nothing else |
| Schemas.UnionMemberErrors | src/lima_api/code_generator/schemas.py:206-230 | A string member without "$ref", "const" or "items" fails at `.get` (AttributeError), one holding "$ref" at `any_of["$ref"]` (TypeError); a list `items` fails at `.get`; a list `type` is unhashable at the type-table test |
| Schemas.NotADict | src/lima_api/code_generator/schemas.py:208-228 | For a non-dict value tested for keys in turn: not iterable is the TypeError of `in`, a string or list holding one of the keys is the TypeError of the subscript, and holding none is the AttributeError of `.get` |
| Schemas.AllOfItems | src/lima_api/code_generator/schemas.py:281-284 | The members' attributes are gathered under the fixed name and models |
| Schemas.ObjectProperties | src/lima_api/code_generator/schemas.py:148-157 | The loop keeps the class name and kind, and the models only grow |
| Schemas.ParseProperty | src/lima_api/code_generator/schemas.py:78-79 | A property whose name cannot be camel-cased fails before anything is processed |
| Schemas.GetRefCached | src/lima_api/code_generator/schemas.py:370-380 | A cached ref comes back as it is, and nothing is processed again |
| Schemas.GetRefTwice | src/lima_api/code_generator/schemas.py:370-380 | Resolving the same ref a second time changes nothing |
| Schemas.GetRefNotFound | src/lima_api/code_generator/schemas.py:372-374 | A ref naming no raw schema raises "Schema <ref> not found" and changes nothing |
| Schemas.GetRefAppends | src/lima_api/code_generator/schemas.py:376-379 | A newly resolved ref is appended last to `order` |
| Schemas.NotAndOneOfRefused | src/lima_api/code_generator/schemas.py:266-267 | `not` and `oneOf` are refused before anything else |
| Schemas.SelfReferenceIsRecursion | src/lima_api/code_generator/schemas.py:370-376 | A schema that refers to itself ends in a RecursionError |
| Schemas.ParseRefs | src/lima_api/code_generator/schemas.py:262-263 | After the loop every raw schema is cached under the base name |
| Schemas.ParseAll | src/lima_api/code_generator/schemas.py:259-263 | A parser that already has schemas returns at once; otherwise every raw schema ends up cached |
| Schemas.ParseRefsErrorSticks | src/lima_api/code_generator/schemas.py:262-263 | The first failing `get_ref` ends the parse |
| Schemas.ParseIdempotent | src/lima_api/code_generator/schemas.py:260-261 | Parsing a second time changes nothing |
| Schemas.EnumsUpTo | src/lima_api/code_generator/schemas.py:386-390 | Each enum name is printed at most once, and never one seen before |
| Schemas.PrintUpTo | src/lima_api/code_generator/schemas.py:382-396 | The printed enum names are distinct and all recorded as seen |
| Schemas.PrintOne | src/lima_api/code_generator/schemas.py:385-396 | One schema's turn keeps the printed enum names distinct and recorded as seen |
| Schemas.PrintTotal | src/lima_api/code_generator/schemas.py:384-385 | Under the cache invariant every ref of `order` prints |
| Schemas.PrintErrorSticks | src/lima_api/code_generator/schemas.py:384-385 | Once a ref fails to print, the whole print fails |
| Schemas.ResolveAll | src/lima_api/code_generator/schemas.py:262-263 | The loop of `parse` computes exactly the reference |
| Schemas.NewEnums | src/lima_api/code_generator/schemas.py:387-390 | The enum loop of `print` computes exactly the reference |
| Schemas.PrintSchema | src/lima_api/code_generator/schemas.py:385-396 | One schema's turn of `print` computes exactly the reference |
| Schemas.SchemaParser.constructor | src/lima_api/code_generator/schemas.py:252-257 | A new parser holds the raw schemas and base name, with an empty cache, order and models |
| Schemas.SchemaParser.GetRef | src/lima_api/code_generator/schemas.py:370-380 | The method gives the reference result and leaves the reference state, including the class names string enums add to `models` |
| Schemas.SchemaParser.ProcessSchema | src/lima_api/code_generator/schemas.py:265-368 | The method gives the reference result and leaves the reference state, including the class names string enums add to `models` |
| Schemas.SchemaParser.Parse | src/lima_api/code_generator/schemas.py:259-263 | The method gives the reference result and leaves the reference state, including the class names string enums add to `models` |
| Schemas.SchemaParser.Print | src/lima_api/code_generator/schemas.py:382-396 | The printed text is the reference text, and printing fails exactly when the reference does |
| CliGen.NewExceptionGen | src/lima_api/code_generator/cli_gen.py:30-33 | The generator exists exactly when the name camel-cases, and holds the camel-cased name, details and model |
| CliGen.ExceptionText | src/lima_api/code_generator/cli_gen.py:35-45 | The exception class text starts with a newline |
| CliGen.AddException | src/lima_api/code_generator/cli_gen.py:47-51 | Adding to a set of exceptions compared by text keeps the old ones, holds one with the new text, and changes nothing when such a text is present |
| CliGen.AddExceptionDistinct | src/lima_api/code_generator/cli_gen.py:47-51 | The exception set never holds two classes with the same text |
| CliGen.AddExceptions | src/lima_api/code_generator/cli_gen.py:308 | The update keeps texts distinct and the old elements, and covers every new text |
| CliGen.AddSchemas | src/lima_api/code_generator/cli_gen.py:309 | The embedded-class update keeps texts distinct and the old elements, and covers every new text |
| CliGen.LeadingDigits | src/lima_api/code_generator/cli_gen.py:241 | The match is the longest run of digits at the front |
| CliGen.MoveDigits | src/lima_api/code_generator/cli_gen.py:241-244 | Moving the leading digits to the end rearranges the name's characters and keeps its length |
| CliGen.MoveDigitsNoLeadingDigit | src/lima_api/code_generator/cli_gen.py:241-244 | A name with a non-digit no longer starts with a digit |
| CliGen.WithErrorSuffix | src/lima_api/code_generator/cli_gen.py:246-248 | A name already mentioning error, invalid or exception is left alone; otherwise "Error" is appended |
| CliGen.WithErrorSuffixMentions | src/lima_api/code_generator/cli_gen.py:246-248 | Every suffixed name mentions an error word |
| CliGen.ExceptionBaseName | src/lima_api/code_generator/cli_gen.py:232-248 | The model type names the exception unless it is None, already a model or generic; then the description does, and a non-string description fails |
| CliGen.ExceptionBaseNameMentionsError | src/lima_api/code_generator/cli_gen.py:241-248 | Every exception base name mentions an error word |
| CliGen.FunctionName | src/lima_api/code_generator/cli_gen.py:67-73 | The snake-cased operationId when there is one (failing for a non-string), else the verb, "_" and the snake-cased path |
| CliGen.FunctionNameShape | src/lima_api/code_generator/cli_gen.py:67-73 | The function name is snake-shaped after the "<verb>_" prefix |
| CliGen.NumericCodes | src/lima_api/code_generator/cli_gen.py:206 | The numeric status keys as non-negative integers |
| CliGen.CollectCodes | src/lima_api/code_generator/cli_gen.py:206 | The collecting loop finds exactly the numeric codes, in document order |
| CliGen.DefaultCodeAsWritten | src/lima_api/code_generator/cli_gen.py:204-220 | The success status as written: 200 without codes, the only code, 200 when listed, else the least code if at most 200, else the first code |
| CliGen.SuccessTestMisread | src/lima_api/code_generator/cli_gen.py:213-219 | For responses 404 then 201, the code as written picks 404; the corrected one picks 201 |
| CliGen.SuccessCodes | src/lima_api/code_generator/cli_gen.py:215 | Exactly the listed codes from 200 up to 399 |
| CliGen.DefaultCode | src/lima_api/code_generator/cli_gen.py:204-220 | The corrected success status: 200 without codes, the only code, 200 when listed, else the least listed 2xx/3xx code, else the first code |
| CliGen.DefaultCodeIsSuccess | src/lima_api/code_generator/cli_gen.py:213-217 | When several codes are listed and one is 2xx or 3xx, the success status is a listed code from 200 up to the least such code |
| CliGen.DefaultCodeIsListed | src/lima_api/code_generator/cli_gen.py:204-220 | The success status is 200 or one of the listed codes |
| CliGen.FirstSuccess | src/lima_api/code_generator/cli_gen.py:214-217 | The ascending scan finds the least 2xx/3xx code, or none |
| Schemas.Hashable | src/lima_api/code_generator/cli_gen.py:112 | A value can be looked up in a type or location table (`OPENAPI_2_TYPE_MAPPING.get`, `PARAM_MAPPING.get`, `t in OPENAPI_2_TYPE_MAPPING`) exactly when it is not a list or dict, and is then the key itself |
| CliGen.GetTypeF | src/lima_api/code_generator/cli_gen.py:152-201 | An unlisted status is "bytes"; no content is "None"; JSON without a schema is "dict"; XML or plain text is "str", any other content "bytes"; the state only grows |
| CliGen.JsonType | src/lima_api/code_generator/cli_gen.py:158-161 | A JSON body without a schema is "dict" |
| CliGen.JsonTypeErrors | src/lima_api/code_generator/cli_gen.py:158-181 | A string schema fails at `schema.get` (AttributeError) unless it holds "anyOf", then at `schema["anyOf"]` (TypeError); an int schema fails at `in` (TypeError); a string `anyOf` member adds "dict"; a list `$ref` is unhashable |
| CliGen.AnyOfOptions | src/lima_api/code_generator/cli_gen.py:163-171 | The options stay distinct, keep the earlier ones, and are "dict" or a referenced model |
| CliGen.AddOption | src/lima_api/code_generator/cli_gen.py:163-171 | Adding an option keeps the options distinct and adds exactly it |
| CliGen.AnyOfLoop | src/lima_api/code_generator/cli_gen.py:164-171 | The `anyOf` loop computes exactly the reference options |
| CliGen.GetTypeM | src/lima_api/code_generator/cli_gen.py:152-201 | The looping method computes exactly the reference type and state |
| CliGen.Rename | src/lima_api/code_generator/cli_gen.py:89-97 | Renaming the body's schema changes only its cache entry |
| CliGen.BodyType | src/lima_api/code_generator/cli_gen.py:88-97 | A union body uses its text, an alias its attributes, a nameless schema "dict", anything else its name |
| CliGen.BodyContent | src/lima_api/code_generator/cli_gen.py:83-84 | The body content is the application/json entry of the request body |
| CliGen.BodyParam | src/lima_api/code_generator/cli_gen.py:83-103 | No JSON request body gives no body parameter; otherwise the parameter is a BodyParameter named body |
| CliGen.ParamField | src/lima_api/code_generator/cli_gen.py:21-26 | Exactly path, query and header have a marker class |
| CliGen.ParamKwargs | src/lima_api/code_generator/cli_gen.py:120-127 | The alias keyword appears exactly when the snake-cased name differs; the default keyword appears exactly when the default is truthy |
| CliGen.ParamLine | src/lima_api/code_generator/cli_gen.py:105-109 | A parameter in a location without a marker class is skipped |
| CliGen.ParamType | src/lima_api/code_generator/cli_gen.py:111-118 | A non-union schema uses the mapped type, and no mapped type raises "Invalid type for parameter" |
| CliGen.ParamsFrom | src/lima_api/code_generator/cli_gen.py:105-135 | Each parameter line is appended to what came before |
| CliGen.ParamsF | src/lima_api/code_generator/cli_gen.py:80-138 | Parameters are empty or start with "*,"; a body parameter comes first |
| CliGen.ParamsLoop | src/lima_api/code_generator/cli_gen.py:105-135 | The parameters loop computes exactly the reference |
| CliGen.ParamsM | src/lima_api/code_generator/cli_gen.py:80-138 | `params` computes exactly the reference |
| CliGen.Put | src/lima_api/code_generator/cli_gen.py:256 | Setting a code keeps codes distinct and replaces only that code |
| CliGen.MappingStep | src/lima_api/code_generator/cli_gen.py:225-256 | "default" and the success status add nothing; a non-integer status raises; any other status is mapped |
| CliGen.MappingFrom | src/lima_api/code_generator/cli_gen.py:225-256 | The mapping's codes are the listed codes except the success status, each once |
| CliGen.MappingF | src/lima_api/code_generator/cli_gen.py:223-257 | `response_mapping` maps exactly the listed codes other than the success status |
| CliGen.MappingM | src/lima_api/code_generator/cli_gen.py:223-257 | The looping method computes exactly the reference mapping and state |
| CliGen.MappingLiteral | src/lima_api/code_generator/cli_gen.py:260-266 | An empty mapping is written "{}", any other a braced literal |
| CliGen.MappingLiteralM | src/lima_api/code_generator/cli_gen.py:260-266 | The looping method writes exactly the reference literal |
| CliGen.StrF | src/lima_api/code_generator/cli_gen.py:259-279 | The function's text is appended to what was rendered before |
| CliGen.StrSecond | src/lima_api/code_generator/cli_gen.py:260-279 | After the second evaluation of the mapping, the text is appended to what was rendered before |
| CliGen.OperationsFrom | src/lima_api/code_generator/cli_gen.py:304-309 | The client's gathered state only grows, and its invariant is kept |
| CliGen.PathsFrom | src/lima_api/code_generator/cli_gen.py:303-309 | The client's gathered state only grows, and its invariant is kept |
| CliGen.PathStep | src/lima_api/code_generator/cli_gen.py:303-304 | A path whose operations are not a dict fails with AttributeError |
| CliGen.OperationStep | src/lima_api/code_generator/cli_gen.py:305-309 | One operation only adds to the client state and keeps its invariant |
| CliGen.ClientParse | src/lima_api/code_generator/cli_gen.py:298-309 | A successful parse keeps the exception and embed sets free of duplicates, and only adds to the parser's order and models |
| CliGen.ExceptionBeforeClient | src/lima_api/code_generator/cli_gen.py:317-323 | Every exception class is written ahead of the ApiClient class |
| CliGen.EmbedBeforeClient | src/lima_api/code_generator/cli_gen.py:320-323 | Every embedded class is written ahead of the ApiClient class |
| CliGen.ClientTextEndsWithApiClient | src/lima_api/code_generator/cli_gen.py:311-323 | The module text ends with the ApiClient class, whose body ends with the methods |
| CliGen.LimaFunction.constructor | src/lima_api/code_generator/cli_gen.py:55-65 | The verb is lower-cased, the path and spec are kept, and the memo, text and sets start empty |
| CliGen.LimaFunction.DefaultResponseCode | src/lima_api/code_generator/cli_gen.py:203-220 | The memoised success status is the corrected one |
| CliGen.LimaFunction.Params | src/lima_api/code_generator/cli_gen.py:79-138 | The method gives the reference parameters and state |
| CliGen.LimaFunction.ReturnedType | src/lima_api/code_generator/cli_gen.py:148-150 | The method gives the type of the success status and leaves the text alone |
| CliGen.LimaFunction.ResponseMapping | src/lima_api/code_generator/cli_gen.py:222-257 | The method gives the reference mapping and state |
| CliGen.LimaFunction.ToString | src/lima_api/code_generator/cli_gen.py:259-279 | The method gives the reference text, appended to the earlier text, and leaves the text alone on failure |
| CliGen.LimaFunction.RenderRest | src/lima_api/code_generator/cli_gen.py:260-279 | The rest of `__str__` gives the reference text, stored on success and left alone on failure |
| CliGen.LimaFunction.Render | src/lima_api/code_generator/cli_gen.py:268-279 | Rendering the template gives the reference text |
| CliGen.ClientGenerator.constructor | src/lima_api/code_generator/cli_gen.py:283-287 | A new generator holds the parser and paths, with no models and no text |
| CliGen.ClientGenerator.GetRef | src/lima_api/code_generator/cli_gen.py:292-293 | Delegates to the parser's `get_ref` |
| CliGen.ClientGenerator.ProcessSchema | src/lima_api/code_generator/cli_gen.py:295-296 | Delegates to the parser's `process_schema` |
| CliGen.ClientGenerator.Parse | src/lima_api/code_generator/cli_gen.py:298-323 | The method gives the reference outcome, parser state and models; the text is the module text on success and is kept on failure |
| CliGen.ClientGenerator.ParsePaths | src/lima_api/code_generator/cli_gen.py:303-309 | The paths loop computes exactly the reference outcome, parser state and models |
| CliGen.ClientGenerator.ParsePath | src/lima_api/code_generator/cli_gen.py:303-309 | One path computes exactly the reference outcome and state |
| CliGen.ClientGenerator.ParseOperations | src/lima_api/code_generator/cli_gen.py:304-309 | The operations loop computes exactly the reference |
| CliGen.ClientGenerator.RenderOperation | src/lima_api/code_generator/cli_gen.py:305-306 | A fresh LimaFunction renders exactly the reference text |

## Findings

| source | as written | input that shows it | evidently intended | confidence | as-written member | corrected member |
|---|---|---|---|---|---|---|
| src/lima_api/code_generator/cli_gen.py:215 | `200 >= status < 400` holds exactly for codes at most 200, so no 2xx or 3xx code other than 200 is ever chosen | `responses` with keys "404" then "201": the success status becomes 404, so 201 is mapped to an exception | `200 <= status < 400`: the least listed 2xx/3xx code is the success status | high, not executed | CliGen.DefaultCodeAsWritten, CliGen.SuccessTestMisread | CliGen.DefaultCode, CliGen.DefaultCodeIsSuccess |

The rest of the model uses the corrected `DefaultCode`: the memo, the
returned type and `response_mapping`, and so every rendered text; the members this affects are listed under "## Left out".

## Left out

- HTTP, httpx clients and OpenTelemetry transports are parameters: `start_client` and `stop_client`, the context managers, and `client.send`. The client is modelled only by its kind (sync or async); `AttachClient` installs one.
- `start_client` builds the client from `self.client_kwargs`, not from its updated copy, so the timeout and transport set there are unused. The model has no client construction, so this is not captured.
- pydantic is a parameter: validation (`TypeAdapter.validate_python` and `validate_json`) is `Validator` and `Decoder`. `model_dump` and `model_dump_json` are modelled concretely: alias keys, None fields dropped when excluded, compact JSON text. Floats are not modelled at all, and the pydantic v1 branches are not modelled.
- The library imports `Location` and `DumpMode` from parameters.py, whose `Location` has no FILE member and which has no `DumpMode`. The model uses the five-member `Location` and the `DumpMode` of constants.py throughout.
- core.py:258 unpacks three tables, but `get_mappings` returns five, so as written every registration raises `ValueError: too many values to unpack`. The model registers the query, path and body tables of the five, which is the intended behaviour, not the written one.
- Retry processors:
  - The base `LimaRetryProcessor.do_retry` admission counter and the `http_response` attribute are not part of this model. The admission is an input `admitted`, and the `Retry-After` header an optional input.
  - Sleeping and logging are recorded as effects.
  - The wall clock `datetime.now` is an input `nowMicros`.
- `RetryProcessors.ParseHttpDate` accepts only the IMF-fixdate form `strptime` reads: ASCII, case-insensitive names, the day of week not checked against the date. Python's `int()` leniency (whitespace, "+", "_", non-ASCII digits) is not modelled: `ParseInt` accepts an optional sign and decimal digits.
- Python set iteration order is modelled as insertion order for the exception set, the embedded-class set, the enum sets and the `anyOf` options of `_get_type`. For the same reason the missing-placeholder message lists its names in path order.
- The environment-driven settings of config.py are fixed at their defaults: retries 0, timeout 15, success code 200.
- The code generator's main.py (file I/O, argument parsing) and the `print(..., file=...)` destination are not part of this model. `Print` returns the text.
- Recursive `$ref` chains: Python recurses until RecursionError. The model passes down the set of schema names being resolved and fails with `RecursionError` on a revisit, which also gives termination.
- `process_schema` writes `"type": "object"` into a dict that has properties but no type. The model reads such a dict as an object without changing the document; processing the same dict again takes the same branch either way.
- Aliasing of cached `SchemaObject`s: the rename of a request body's schema and the `pop` from `embed_cls` are modelled on the cache entry of the schema's origin ref. Other sharing between cached objects is not captured.
- A non-dict `responses` counts as empty.
- ProcessScalar: a string schema whose `enum` is not a list raises TypeError in the model. schemas.py:346-347 take its `len` and iterate it, so a string `"ab"` gives an enum of "a" and "b", a one-character string a `Literal` of it, a dict its keys (a one-key dict raises KeyError at `enums[0]`), and only values without a length raise TypeError.
- ProcessUnion: an `anyOf` that is not a list raises TypeError in the model. schemas.py:205 iterates a dict's keys or a string's characters and tests each as a member; an empty one gives an empty union.
- ProcessAllOf: an `allOf` that is not a list raises TypeError in the model. At schemas.py:277-286 an empty dict or string gives an empty object class, a one-key dict raises KeyError, other dicts and strings fail on processing their keys or characters, and only values without a length raise TypeError.
- JsonType: an `anyOf` that is not a list raises TypeError in the model. cli_gen.py:164-171 iterate a dict's keys or a string's characters, and each one without a "$ref" substring adds "dict"; an empty one gives `typing.Union[]`.
- ParamsF: `parameters` that is not a list raises TypeError in the model. cli_gen.py:77 and :105 iterate it, so `{}` or `""` gives no parameters and a non-empty dict or string raises AttributeError at `param.get`.
- ParamsM: the same as `ParamsF`, whose result it computes.
- Errors raised by the interpreter itself (TypeError, AttributeError, KeyError, IndexError) follow the kind Python raises at each modelled site, except where a member's line above says otherwise. Some messages are labels, not Python's text: `unhashable type` without the type's name, `anyOf is not a list`, `len() of unsized object`, and the bare attribute name of a failed `.get`, `.items` or `.replace`. The `in` and subscript failures of a non-dict value carry Python 3.11's text.
- Display: an enum member is written `Class.MEMBER`, as `str()` and f-strings write a plain or a str-mixed enum member on Python 3.11 and later, the version modelled. `IntEnum` and `StrEnum` members, which Python writes as their value, are not told apart from other mixed-in members.
- PyStrRepr: characters beyond U+00FF are written as they are. Python's `repr` escapes the non-printable ones (U+2028, format and unassigned code points) as `\u` or `\U` escapes, and telling them apart needs the Unicode character database.
- JsonText: a bytes field in a JSON dump is written one character per byte. pydantic decodes it as UTF-8 and fails on invalid UTF-8; the model has no UTF-8 decoder.
- DefaultResponseCode: the memo holds the corrected success status `DefaultCode`, not the one cli_gen.py:215 computes: for responses "404" then "201" the source picks 404, the model 201. The code as written is `DefaultCodeAsWritten` (see Findings).
- MappingF: maps every listed code except the corrected success status, so for responses "404" then "201" it maps 404 where the source maps 201.
- MappingM: is `MappingF`, with the same corrected success status.
- StrF: renders `default_response_code` and `response_mapping` from the corrected success status.
- StrSecond: renders from the corrected success status, as `StrF` does.
- ReturnedType: is the type of the response under the corrected success status.
- ResponseMapping: is the mapping around the corrected success status.
- ToString: renders the corrected success status.
- RenderRest: renders the corrected success status.
- Render: renders the corrected success status.
- ParsePaths: the module text holds the corrected success status of each operation.
- ParsePath: the module text holds the corrected success status of each operation.
- ParseOperations: the module text holds the corrected success status of each operation.
- RenderOperation: the text holds the corrected success status of the operation.
- Parse: `ClientGenerator.Parse` gives a module text that holds the corrected success status of each operation.
- `_get_final_type` is never called; `PropertyParser`'s `required` argument and `is_required` are never read. Neither is modelled. Computing `prop in required` is, because it fails with TypeError when `required` is an int or a bool (`ProcessObject`).
- String `isnumeric`, `isdigit`, `upper` and `lower` are modelled on ASCII only.
- Duplicate keys in a JSON object are not produced by `json.load`; the model takes the first.
